/** What qedf_flush_active_ios achieves: every command that an outstanding request of the port has when the
    walk comes by is taken from that request before the walk goes on, unless the visit spares it; and it is
    given back exactly once. */
module Flushing {
  import opened Requests
  import opened Exchange
  import opened Holders
  import opened Counting
  import opened ExchangeInvariant
  import opened StepInvariant
  import opened Ledger
  import opened ExchangeTheorems
  import opened Leaks
  import opened Withdrawal
  import opened Accounts
  import RrqFlush

  // ---- One visit

  /** The walk passes an outstanding request with a command and leaves it alone: the LUN is another one, or
      there is no cleanup to wait for (session not ready, send queue full, cleanup already under way), or
      the timer of an abort is not running. */
  predicate Spared(r: IoReq, e: Env) {
    if r.cmdType.Abts? then !Covered(e) || TimeoutWork !in r.pending || !e.ready || !e.room || InCleanup in r.flags
    else
      && !e.nullDevice
      && (!Covered(e) || (!e.recovery && (!e.ready || !e.room || InCleanup in r.flags || r.cmdType.Cleanup?)))
  }

  predicate Covered(e: Env) { e.wholeTarget || e.lunMatches }

  /** Request `r` is outstanding for the port and has a command. */
  predicate Busy(r: IoReq, port: nat) { r.alloc && r.fcport == Some(port) && Outstanding in r.flags && r.scCmd.Some? }

  lemma {:induction false} AbtsSparedIff(r: IoReq, inc: int, port: nat, e: Env)
    requires ReqOk(r, inc) && Busy(r, port) && r.flushWait.NoFlush? && r.cmdType.Abts?
    ensures var r' := FlushAbtsVisit(r, e);
            r'.scCmd == r.scCmd && (r'.flushWait.NoFlush? <==> Spared(r, e)) && !r'.flushWait.FlushEls?
  {}

  lemma {:induction false} ScsiSparedIff(r: IoReq, inc: int, port: nat, token: bool, e: Env)
    requires ReqOk(r, inc) && Busy(r, port) && r.flushWait.NoFlush? && !r.cmdType.Abts? && token
    ensures var r' := FlushScsiVisit(r, token, e).req;
            && (r'.scCmd == r.scCmd && r'.flushWait.NoFlush? <==> Spared(r, e)) && !r'.flushWait.FlushEls?
            && (r'.scCmd == r.scCmd || r'.scCmd.None?)
  {}

  /** A visit leaves the command with the request, without waiting for it, if and only if it spares it. */
  lemma {:induction false} SparedIff(s: State, x: nat, port: nat, e: Env)
    requires Inv(s) && x < NUM_TASKS && Busy(s.reqs[x], port) && s.reqs[x].flushWait.NoFlush?
    ensures var r' := Flush(s, x, port, e).reqs[x];
            && (r'.scCmd == s.reqs[x].scCmd && r'.flushWait.NoFlush? <==> Spared(s.reqs[x], e))
            && !r'.flushWait.FlushEls? && (r'.scCmd == s.reqs[x].scCmd || r'.scCmd.None?)
  {
    ReqAt(s, x);
    if s.reqs[x].cmdType.Abts? {
      AbtsSparedIff(s.reqs[x], Incoming(s, x), port, e);
    } else {
      ScsiSparedIff(s.reqs[x], Incoming(s, x), port, Token(s, x), e);
    }
  }

  // ---- The walk goes on

  lemma {:induction false} EndEmpties(r: IoReq, inc: int, token: bool, e: Env)
    requires ReqOk(r, inc) && !r.flushWait.NoFlush? && !r.flushWait.FlushEls? && (r.scCmd.Some? ==> token)
    ensures FlushScsiEnd(r, token, e).req.scCmd.None?
  {}

  lemma {:induction false} ResumeEmpties(s: State, x: nat, e: Env)
    requires Inv(s) && Enabled(s, FlushResumes(x, e)) && !s.reqs[x].flushWait.FlushEls?
    ensures Apply(s, FlushResumes(x, e)).reqs[x].scCmd.None?
  {
    ReqAt(s, x);
    EndEmpties(s.reqs[x], Incoming(s, x), Token(s, x), e);
  }

  // ---- Runs

  /** In life `l` of the request the walk waits on it. */
  ghost predicate Awaited(r: IoReq, l: nat) {
    r.life == l && r.alloc && !r.flushWait.NoFlush? && !r.flushWait.FlushEls?
  }

  /** Life `l` of the request is over, or it has no command any more. */
  ghost predicate LetGo(r: IoReq, l: nat) { r.life > l || (r.life == l && r.alloc && r.scCmd.None?) }

  lemma {:induction false} LetGoStep(s: State, t: Step, x: nat, l: nat)
    requires Inv(s) && Enabled(s, t) && !Hazard(s, t) && x < NUM_TASKS && (Awaited(s.reqs[x], l) || LetGo(s.reqs[x], l))
    ensures var r' := Apply(s, t).reqs[x]; Awaited(r', l) || LetGo(r', l)
  {
    LawfulStep(s, t);
    assert Ages(s.reqs[x], Apply(s, t).reqs[x]);
    StepWorsens(s, t, x);
    if t.FlushResumes? && t.x == x && Awaited(s.reqs[x], l) { ResumeEmpties(s, x, t.e); }
  }

  lemma {:induction false} LetGoRun(s: State, ts: seq<Step>, x: nat, l: nat)
    requires Inv(s) && Admissible(s, ts) && HazardFree(s, ts) && x < NUM_TASKS
    requires Awaited(s.reqs[x], l) || LetGo(s.reqs[x], l)
    ensures var r' := After(s, ts).reqs[x]; Awaited(r', l) || LetGo(r', l)
    decreases |ts|
  {
    if |ts| > 0 {
      StepKeeps(s, ts[0]);
      LetGoStep(s, ts[0], x, l);
      LetGoRun(Apply(s, ts[0]), ts[1..], x, l);
    }
  }

  lemma {:induction false} VisitTakes(s: State, x: nat, port: nat, e: Env)
    requires Inv(s) && Enabled(s, FlushVisits(x, port, e)) && Busy(s.reqs[x], port) && !Spared(s.reqs[x], e)
    ensures var r', l := Apply(s, FlushVisits(x, port, e)).reqs[x], s.reqs[x].life; Awaited(r', l) || LetGo(r', l)
  {
    SparedIff(s, x, port, e);
    LawfulStep(s, FlushVisits(x, port, e));
    assert Ages(s.reqs[x], Apply(s, FlushVisits(x, port, e)).reqs[x]);
  }

  /** Whatever happens between a visit and the time the walk no longer waits on the request: if the visit did
      not spare the command, the request has let go of it. */
  lemma {:induction false} FlushEmpties(s: State, x: nat, port: nat, e: Env, ts: seq<Step>)
    requires Inv(s) && Enabled(s, FlushVisits(x, port, e)) && Busy(s.reqs[x], port) && !Spared(s.reqs[x], e)
    requires var s1 := Apply(s, FlushVisits(x, port, e)); Admissible(s1, ts) && HazardFree(s1, ts)
    requires After(Apply(s, FlushVisits(x, port, e)), ts).reqs[x].flushWait.NoFlush?
    ensures LetGo(After(Apply(s, FlushVisits(x, port, e)), ts).reqs[x], s.reqs[x].life)
  {
    StepKeeps(s, FlushVisits(x, port, e));
    VisitTakes(s, x, port, e);
    LetGoRun(Apply(s, FlushVisits(x, port, e)), ts, x, s.reqs[x].life);
  }

  // ---- What becomes of the command

  /** At most `x` has the command, and only while the walk waits on it. */
  ghost predicate Leaving(s: State, x: nat, c: nat) {
    && (forall i :: 0 <= i < |s.reqs| && s.reqs[i].scCmd == Some(c) ==> i == x)
    && (x < |s.reqs| && s.reqs[x].scCmd == Some(c) ==> !s.reqs[x].flushWait.NoFlush? && !s.reqs[x].flushWait.FlushEls?)
  }

  lemma {:induction false} LeavingStep(s: State, t: Step, x: nat, c: nat)
    requires Inv(s) && Enabled(s, t) && !Hazard(s, t) && x < NUM_TASKS && Leaving(s, x, c) && c !in Gains(s, t)
    ensures Leaving(Apply(s, t), x, c) && Count(Apply(s, t).log, Accepts(c)) == Count(s.log, Accepts(c))
  {
    LawfulStep(s, t);
    StepWorsens(s, t, x);
    NobodyGets(s, Apply(s, t), Gains(s, t), c);
    if t.FlushResumes? && t.x == x && s.reqs[x].scCmd == Some(c) { ResumeEmpties(s, x, t.e); }
  }

  /** A lawful step that does not gain command `c` gives it to nobody and does not accept it. */
  lemma {:induction false} NobodyGets(s: State, s': State, gained: set<nat>, c: nat)
    requires LawfulBut(s, s', gained) && c !in gained
    ensures forall i :: 0 <= i < |s'.reqs| && s'.reqs[i].scCmd == Some(c) ==> s.reqs[i].scCmd == Some(c)
    ensures Count(s'.log, Accepts(c)) == Count(s.log, Accepts(c))
  {
    forall i | 0 <= i < |s'.reqs| && s'.reqs[i].scCmd == Some(c) ensures s.reqs[i].scCmd == Some(c) {
      assert Shy(s.reqs[i], s'.reqs[i]);
    }
    if s'.log != s.log {
      var l :| s'.log == s.log + [l] && EntryOk(s, l) && (l.Accepted? ==> l.cmd in gained);
      CountAppend(s.log, Accepts(c), l);
    }
  }

  lemma {:induction false} LeavingRun(s: State, ts: seq<Step>, x: nat, c: nat)
    requires Inv(s) && Admissible(s, ts) && HazardFree(s, ts) && x < NUM_TASKS && Leaving(s, x, c)
    requires !SomeAccepts(s, ts, c) && !SomeRequeues(s, ts, c)
    ensures Leaving(After(s, ts), x, c) && Count(After(s, ts).log, Accepts(c)) == Count(s.log, Accepts(c))
    decreases |ts|
  {
    if |ts| > 0 {
      StepKeeps(s, ts[0]);
      LeavingStep(s, ts[0], x, c);
      LeavingRun(Apply(s, ts[0]), ts[1..], x, c);
    }
  }

  lemma {:induction false} VisitLeaves(s: State, x: nat, port: nat, e: Env, c: nat)
    requires Inv(s) && Enabled(s, FlushVisits(x, port, e)) && Busy(s.reqs[x], port) && !Spared(s.reqs[x], e)
    requires s.reqs[x].scCmd == Some(c)
    ensures var s1 := Apply(s, FlushVisits(x, port, e));
            Leaving(s1, x, c) && Count(s1.log, Accepts(c)) == Count(s.log, Accepts(c)) && Holds(s, c)
  {
    var t := FlushVisits(x, port, e);
    var s1 := Apply(s, t);
    ReqAt(s, x);
    SparedIff(s, x, port, e);
    LawfulStep(s, t);
    NobodyGets(s, s1, Gains(s, t), c);
  }

  /** If moreover the command is neither requeued nor lost nor submitted again on the way, it has been given
      back exactly once since the visit. */
  lemma {:induction false} FlushReturns(s: State, x: nat, port: nat, e: Env, ts: seq<Step>, c: nat)
    requires Inv(s) && Enabled(s, FlushVisits(x, port, e)) && Busy(s.reqs[x], port) && !Spared(s.reqs[x], e)
    requires s.reqs[x].scCmd == Some(c) && c !in LostBy(s, FlushVisits(x, port, e))
    requires var s1 := Apply(s, FlushVisits(x, port, e));
             && Admissible(s1, ts) && HazardFree(s1, ts)
             && !SomeAccepts(s1, ts, c) && !SomeRequeues(s1, ts, c) && Losses(s1, ts, c) == 0
    requires After(Apply(s, FlushVisits(x, port, e)), ts).reqs[x].flushWait.NoFlush?
    ensures var s' := After(Apply(s, FlushVisits(x, port, e)), ts);
            !Holds(s', c) && Count(s'.log, GivesBack(c)) == Count(s.log, GivesBack(c)) + 1
  {
    var s1 := Apply(s, FlushVisits(x, port, e));
    StepKeeps(s, FlushVisits(x, port, e));
    VisitLeaves(s, x, port, e, c);
    LeavingRun(s1, ts, x, c);
    OwedStep(s, FlushVisits(x, port, e), c);
    OwedRunFrom(s1, ts, c);
  }

  // ---- The loop of qedf_flush_active_ios

  /** No flush waits anywhere. */
  ghost predicate Awake(s: State) { forall i :: 0 <= i < |s.reqs| ==> s.reqs[i].flushWait.NoFlush? }

  /** The walk comes to request `at - 1` without having slept. */
  ghost predicate Walks(s: State, port: nat, from: nat, at: nat, es: seq<Env>)
    requires WellFormed(s) && at <= NUM_TASKS && |es| == NUM_TASKS
  {
    Inv(s) && Awake(s) && forall k :: from < k < at ==> Passes(s, port, from, k, es)
  }

  /** A flush waits at most on `x`. */
  ghost predicate AwakeBut(s: State, x: int) {
    forall i :: 0 <= i < |s.reqs| && i != x ==> s.reqs[i].flushWait.NoFlush?
  }

  lemma {:induction false} VisitsOne(s: State, x: nat, port: nat, e: Env)
    requires Inv(s) && Awake(s) && x < NUM_TASKS
    ensures KeptAwake(Flush(s, x, port, e), x)
  {
    var t := FlushVisits(x, port, e);
    StepKeeps(s, t);
    forall i | 0 <= i < |s.reqs| && i != x ensures Apply(s, t).reqs[i].flushWait.NoFlush? { StepWorsens(s, t, i); }
  }

  lemma {:induction false} WalkNext(s: State, port: nat, from: nat, at: nat, es: seq<Env>)
    requires WellFormed(s) && from < at <= NUM_TASKS && |es| == NUM_TASKS
    requires Inv(FlushRange(s, port, from, at - 1, es)) && Awake(FlushRange(s, port, from, at - 1, es))
    ensures KeptAwake(FlushRange(s, port, from, at, es), at - 1)
  {
    var s1 := FlushRange(s, port, from, at - 1, es);
    VisitsOne(s1, at - 1, port, es[at - 1]);
    assert FlushRange(s, port, from, at, es) == Flush(s1, at - 1, port, es[at - 1]);
  }

  ghost predicate KeptAwake(s: State, x: int) { Inv(s) && AwakeBut(s, x) }

  lemma {:induction false} PassedAwake(s: State, port: nat, from: nat, at: nat, es: seq<Env>)
    requires WellFormed(s) && from < at <= NUM_TASKS && |es| == NUM_TASKS && Passes(s, port, from, at, es)
    requires Awake(FlushRange(s, port, from, at - 1, es)) && AwakeBut(FlushRange(s, port, from, at, es), at - 1)
    ensures Awake(FlushRange(s, port, from, at, es))
  {
    assert FlushRange(s, port, from, at - 1, es).reqs[at - 1].flushWait.NoFlush?;
  }

  /** The walk keeps the invariant, and nothing sleeps but the walk, and that only where it stopped. */
  lemma {:induction false} WalkKeeps(s: State, port: nat, from: nat, at: nat, es: seq<Env>)
    requires WellFormed(s) && from <= at <= NUM_TASKS && |es| == NUM_TASKS && Walks(s, port, from, at, es)
    ensures KeptAwake(FlushRange(s, port, from, at, es), at - 1)
    ensures from == at || Passes(s, port, from, at, es) ==> Awake(FlushRange(s, port, from, at, es))
    decreases at, 1
  {
    if from < at {
      WalkBefore(s, port, from, at, es);
      WalkNext(s, port, from, at, es);
      if Passes(s, port, from, at, es) { PassedAwake(s, port, from, at, es); }
    }
  }

  /** Before its last visit the walk has left nothing asleep. */
  lemma {:induction false} WalkBefore(s: State, port: nat, from: nat, at: nat, es: seq<Env>)
    requires WellFormed(s) && from < at <= NUM_TASKS && |es| == NUM_TASKS && Walks(s, port, from, at, es)
    ensures Inv(FlushRange(s, port, from, at - 1, es)) && Awake(FlushRange(s, port, from, at - 1, es))
    decreases at, 0
  {
    WalkKeeps(s, port, from, at - 1, es);
    if from < at - 1 { assert Passes(s, port, from, at - 1, es); }
  }

  /** The walk as steps of the transition system. */
  function Visits(port: nat, from: nat, at: nat, es: seq<Env>): (ts: seq<Step>)
    requires from <= at <= |es|
    decreases at
  {
    if from == at then [] else Visits(port, from, at - 1, es) + [FlushVisits(at - 1, port, es[at - 1])]
  }

  lemma {:induction false} WalkIsRun(s: State, port: nat, from: nat, at: nat, es: seq<Env>)
    requires WellFormed(s) && from <= at <= NUM_TASKS && |es| == NUM_TASKS && Walks(s, port, from, at, es)
    ensures var ts := Visits(port, from, at, es);
            Admissible(s, ts) && HazardFree(s, ts) && After(s, ts) == FlushRange(s, port, from, at, es)
    decreases at
  {
    if from < at {
      WalkIsRun(s, port, from, at - 1, es);
      WalkBefore(s, port, from, at, es);
      RunGoesOn(s, Visits(port, from, at - 1, es), at - 1, port, es[at - 1]);
    }
  }

  lemma {:induction false} RunGoesOn(s: State, ts: seq<Step>, x: nat, port: nat, e: Env)
    requires WellFormed(s) && Admissible(s, ts) && HazardFree(s, ts) && Awake(After(s, ts)) && x < NUM_TASKS
    ensures var us := ts + [FlushVisits(x, port, e)];
            Admissible(s, us) && HazardFree(s, us) && After(s, us) == Flush(After(s, ts), x, port, e)
  {
    OneStep(After(s, ts), FlushVisits(x, port, e));
    Joined(s, ts, [FlushVisits(x, port, e)]);
  }

  /** When the walk has come to `at`, every request behind it that was busy when visited and not spared has
      let go of its command, or is the one the walk waits on. */
  lemma {:induction false} WalkEmpties(s: State, port: nat, from: nat, at: nat, es: seq<Env>, i: nat)
    requires WellFormed(s) && from <= i < at <= NUM_TASKS && |es| == NUM_TASKS && Walks(s, port, from, at, es)
    requires var r := FlushRange(s, port, from, i, es).reqs[i]; Busy(r, port) && !Spared(r, es[i])
    ensures var r, r' := FlushRange(s, port, from, i, es).reqs[i], FlushRange(s, port, from, at, es).reqs[i];
            LetGo(r', r.life) || (Awaited(r', r.life) && i == at - 1)
  {
    WalkTakes(s, port, from, at, es, i);
    WalkKeeps(s, port, from, at, es);
  }

  lemma {:induction false} WalkTakes(s: State, port: nat, from: nat, at: nat, es: seq<Env>, i: nat)
    requires WellFormed(s) && from <= i < at <= NUM_TASKS && |es| == NUM_TASKS && Walks(s, port, from, at, es)
    requires var r := FlushRange(s, port, from, i, es).reqs[i]; Busy(r, port) && !Spared(r, es[i])
    ensures Taken(FlushRange(s, port, from, at, es).reqs[i], FlushRange(s, port, from, i, es).reqs[i].life)
    decreases at
  {
    WalkBefore(s, port, from, at, es);
    if i == at - 1 {
      TakenNow(FlushRange(s, port, from, i, es), i, port, es[i]);
    } else {
      WalkTakes(s, port, from, at - 1, es, i);
      var l := FlushRange(s, port, from, i, es).reqs[i].life;
      StillTaken(FlushRange(s, port, from, at - 1, es), at - 1, port, es[at - 1], i, l);
    }
  }

  ghost predicate Taken(r: IoReq, l: nat) { Awaited(r, l) || LetGo(r, l) }

  lemma {:induction false} TakenNow(s: State, x: nat, port: nat, e: Env)
    requires Inv(s) && Awake(s) && x < NUM_TASKS && Busy(s.reqs[x], port) && !Spared(s.reqs[x], e)
    ensures Taken(Flush(s, x, port, e).reqs[x], s.reqs[x].life)
  {
    VisitTakes(s, x, port, e);
  }

  lemma {:induction false} StillTaken(s: State, x: nat, port: nat, e: Env, i: nat, l: nat)
    requires Inv(s) && Awake(s) && x < NUM_TASKS && i < NUM_TASKS && Taken(s.reqs[i], l)
    ensures Taken(Flush(s, x, port, e).reqs[i], l)
  {
    LetGoStep(s, FlushVisits(x, port, e), i, l);
  }

  /** What the visit of request `i` has led to when the walk has come to `at`. */
  ghost predicate Flushed(s: State, port: nat, from: nat, at: nat, i: nat, es: seq<Env>)
    requires WellFormed(s) && from <= i < at <= NUM_TASKS && |es| == NUM_TASKS
  {
    var r, r' := FlushRange(s, port, from, i, es).reqs[i], FlushRange(s, port, from, at, es).reqs[i];
    Busy(r, port) && !Spared(r, es[i]) ==> LetGo(r', r.life) || (Awaited(r', r.life) && i == at - 1)
  }

  /** All of it together. */
  lemma {:induction false} Walked(s: State, port: nat, from: nat, at: nat, es: seq<Env>)
    requires WellFormed(s) && from <= at <= NUM_TASKS && |es| == NUM_TASKS && Walks(s, port, from, at, es)
    ensures var ts, s' := Visits(port, from, at, es), FlushRange(s, port, from, at, es);
            && Inv(s') && Admissible(s, ts) && HazardFree(s, ts) && After(s, ts) == s' && AwakeBut(s', at - 1)
            && (from == at || Passes(s, port, from, at, es) ==> Awake(s'))
    ensures forall i :: from <= i < at ==> Flushed(s, port, from, at, i, es)
  {
    WalkKeeps(s, port, from, at, es);
    WalkIsRun(s, port, from, at, es);
    forall i | from <= i < at ensures Flushed(s, port, from, at, i, es) {
      var r := FlushRange(s, port, from, i, es).reqs[i];
      if Busy(r, port) && !Spared(r, es[i]) { WalkEmpties(s, port, from, at, es, i); }
    }
  }

  // ---- A whole flush

  /** A run that contains one flush of `port` from request `next` on: the visits come in order and the walk has
      ended when the run ends. Anything else may happen in between, also while the walk sleeps. */
  ghost predicate FlushRun(s: State, ts: seq<Step>, port: nat, next: nat)
    requires WellFormed(s) && Admissible(s, ts)
    decreases |ts|
  {
    if |ts| == 0 then next == NUM_TASKS && Awake(s)
    else if !ts[0].FlushVisits? then FlushRun(Apply(s, ts[0]), ts[1..], port, next)
    else ts[0].x == next && ts[0].port == port && FlushRun(Apply(s, ts[0]), ts[1..], port, next + 1)
  }

  lemma {:induction false} FlushRunEnds(s: State, ts: seq<Step>, port: nat, next: nat)
    requires WellFormed(s) && Admissible(s, ts) && FlushRun(s, ts, port, next)
    ensures Awake(After(s, ts))
    decreases |ts|
  {
    if |ts| > 0 { FlushRunEnds(Apply(s, ts[0]), ts[1..], port, if ts[0].FlushVisits? then next + 1 else next); }
  }

  /** Step `k` of the run visits request `x`. If it finds a command there and does not spare it, the request has let
      go of it in the end. If it finds a request that is no longer outstanding and not waiting for the answer to an
      ABTS, there is no RRQ of that life in the end. */
  ghost predicate Emptied(s: State, ts: seq<Step>, port: nat, x: nat, k: nat)
    requires WellFormed(s) && Admissible(s, ts) && x < NUM_TASKS
  {
    && k < |ts| && ts[k].FlushVisits? && ts[k].x == x && ts[k].port == port && Admissible(s, ts[..k])
    && var r, r' := After(s, ts[..k]).reqs[x], After(s, ts).reqs[x];
       && (Busy(r, port) && !Spared(r, ts[k].e) ==> LetGo(r', r.life))
       && (Idle(r, port) ==> r'.life > r.life || RrqWork !in r'.pending)
  }

  /** Request `r` of the port is no longer outstanding, and no answer to an ABTS is awaited. */
  predicate Idle(r: IoReq, port: nat) {
    && r.alloc && r.fcport == Some(port) && Outstanding !in r.flags && !(InAbort in r.flags && r.cmdType.Abts?)
  }

  lemma {:induction false} EmptiedLater(s: State, ts: seq<Step>, port: nat, x: nat, k: nat)
    requires WellFormed(s) && Admissible(s, ts) && |ts| > 0 && x < NUM_TASKS
    requires Emptied(Apply(s, ts[0]), ts[1..], port, x, k)
    ensures Emptied(s, ts, port, x, k + 1)
  {
    assert ts[..k + 1][1..] == ts[1..][..k];
  }

  lemma {:induction false} EmptiedNow(s: State, ts: seq<Step>, port: nat, x: nat)
    requires Inv(s) && Admissible(s, ts) && HazardFree(s, ts) && |ts| > 0 && x < NUM_TASKS
    requires ts[0].FlushVisits? && ts[0].x == x && ts[0].port == port && Awake(After(s, ts))
    ensures Emptied(s, ts, port, x, 0)
  {
    assert ts[..0] == [];
    var e := ts[0].e;
    if Busy(s.reqs[x], port) && !Spared(s.reqs[x], e) { FlushEmpties(s, x, port, e, ts[1..]); }
    if Idle(s.reqs[x], port) {
      StepKeeps(s, ts[0]);
      RrqFlush.VisitQuiets(s, x, port, e);
      RrqFlush.QuietRun(Apply(s, ts[0]), ts[1..], x, s.reqs[x].life);
    }
  }

  /** A flush that has come to its end, whatever else went on: every request has been visited, every command that a
      visit found and did not spare is gone from its request, and so is the RRQ of every request that a visit found
      idle. */
  lemma {:induction false} WholeFlush(s: State, ts: seq<Step>, port: nat, next: nat, x: nat) returns (k: nat)
    requires Inv(s) && Admissible(s, ts) && HazardFree(s, ts) && FlushRun(s, ts, port, next) && next <= x < NUM_TASKS
    ensures Emptied(s, ts, port, x, k)
    decreases |ts|
  {
    FlushRunEnds(s, ts, port, next);
    if ts[0].FlushVisits? && next == x {
      k := 0;
      EmptiedNow(s, ts, port, x);
    } else {
      StepKeeps(s, ts[0]);
      var j := WholeFlush(Apply(s, ts[0]), ts[1..], port, if ts[0].FlushVisits? then next + 1 else next, x);
      EmptiedLater(s, ts, port, x, j);
      k := j + 1;
    }
  }
}
