/** What holds in every run of the request pool. */
module ExchangeTheorems {
  import opened Requests
  import opened Exchange
  import opened Holders
  import opened Counting
  import opened ExchangeInvariant
  import opened StepInvariant
  import opened Decisions
  import opened Ledger

  // ---- Runs

  /** Every step of the run may happen when its turn comes. */
  ghost predicate Admissible(s: State, ts: seq<Step>)
    requires WellFormed(s)
    decreases |ts|
  {
    |ts| == 0 || (Enabled(s, ts[0]) && Admissible(Apply(s, ts[0]), ts[1..]))
  }

  ghost function After(s: State, ts: seq<Step>): (s': State)
    requires WellFormed(s) && Admissible(s, ts)
    ensures WellFormed(s')
    decreases |ts|
  {
    if |ts| == 0 then s else After(Apply(s, ts[0]), ts[1..])
  }

  ghost predicate Reaches(s: State, s': State)
    requires WellFormed(s)
  {
    exists ts :: Admissible(s, ts) && After(s, ts) == s'
  }

  lemma {:induction false} Extended(s: State, ts: seq<Step>, t: Step)
    requires WellFormed(s) && Admissible(s, ts) && Enabled(After(s, ts), t)
    ensures Admissible(s, ts + [t]) && After(s, ts + [t]) == Apply(After(s, ts), t)
    decreases |ts|
  {
    if |ts| > 0 {
      Extended(Apply(s, ts[0]), ts[1..], t);
      assert (ts + [t])[1..] == ts[1..] + [t];
    } else {
      assert ts + [t] == [t];
    }
  }

  lemma {:induction false} ReachesNext(s: State, s1: State, t: Step)
    requires WellFormed(s) && Reaches(s, s1) && WellFormed(s1) && Enabled(s1, t)
    ensures Reaches(s, Apply(s1, t))
  {
    var ts :| Admissible(s, ts) && After(s, ts) == s1;
    Extended(s, ts, t);
  }

  /** No step of the run is a hazard when its turn comes. */
  ghost predicate HazardFree(s: State, ts: seq<Step>)
    requires WellFormed(s) && Admissible(s, ts)
    decreases |ts|
  {
    |ts| == 0 || (!Hazard(s, ts[0]) && HazardFree(Apply(s, ts[0]), ts[1..]))
  }

  /** `us` can follow `ts`, and the two together are one run. */
  ghost predicate OneRun(s: State, ts: seq<Step>, us: seq<Step>)
    requires WellFormed(s)
  {
    && Admissible(s, ts) && Admissible(After(s, ts), us)
    && Admissible(s, ts + us) && After(s, ts + us) == After(After(s, ts), us)
    && (HazardFree(s, ts + us) <==> HazardFree(s, ts) && HazardFree(After(s, ts), us))
  }

  lemma {:induction false} Joined(s: State, ts: seq<Step>, us: seq<Step>)
    requires WellFormed(s) && Admissible(s, ts) && Admissible(After(s, ts), us)
    ensures OneRun(s, ts, us)
    decreases |ts|
  {
    if |ts| == 0 {
      assert ts + us == us;
    } else {
      Joined(Apply(s, ts[0]), ts[1..], us);
      JoinedStep(s, ts[0], ts[1..], us);
      assert [ts[0]] + ts[1..] == ts;
    }
  }

  lemma {:induction false} JoinedStep(s: State, t: Step, ts: seq<Step>, us: seq<Step>)
    requires WellFormed(s) && Enabled(s, t) && OneRun(Apply(s, t), ts, us)
    ensures OneRun(s, [t] + ts, us)
  {
    var s1, s2, both := Apply(s, t), After(Apply(s, t), ts), ts + us;
    assert Admissible(s1, both) && After(s1, both) == After(s2, us);
    Cons(s, t, ts);
    Cons(s, t, both);
    Regrouped(t, ts, us);
  }

  lemma {:induction false} Regrouped(t: Step, ts: seq<Step>, us: seq<Step>)
    ensures [t] + ts + us == [t] + (ts + us)
  {}

  lemma {:induction false} Cons(s: State, t: Step, ts: seq<Step>)
    requires WellFormed(s) && Enabled(s, t) && Admissible(Apply(s, t), ts)
    ensures Admissible(s, [t] + ts) && After(s, [t] + ts) == After(Apply(s, t), ts)
    ensures HazardFree(s, [t] + ts) <==> !Hazard(s, t) && HazardFree(Apply(s, t), ts)
  {
    assert ([t] + ts)[1..] == ts;
  }

  lemma {:induction false} OneStep(s: State, t: Step)
    requires WellFormed(s) && Enabled(s, t)
    ensures Admissible(s, [t]) && After(s, [t]) == Apply(s, t) && (HazardFree(s, [t]) <==> !Hazard(s, t))
  {
    Cons(s, t, []);
    assert [t] + [] == [t];
  }

  /** The reference count is the number of live holders, and the three signs of being in use agree. */
  ghost predicate BalancedAt(s: State, x: nat)
    requires x < |s.reqs|
  {
    && s.reqs[x].refs == LiveHolders(s, x)
    && (s.reqs[x].alloc <==> s.reqs[x].fcport.Some?)
    && (s.reqs[x].alloc <==> s.reqs[x].refs > 0)
  }

  ghost predicate Balanced(s: State) {
    forall x :: 0 <= x < |s.reqs| ==> BalancedAt(s, x)
  }

  /** Every state of the run is balanced. */
  ghost predicate AlwaysBalanced(s: State, ts: seq<Step>)
    requires WellFormed(s) && Admissible(s, ts)
    decreases |ts|
  {
    Balanced(s) && (|ts| == 0 || AlwaysBalanced(Apply(s, ts[0]), ts[1..]))
  }

  // ---- The initial state

  lemma {:induction false} InitialPool(s: State, ports: nat)
    requires s == Initial(ports)
    ensures PoolOk(s)
  {
    CountAll(s.reqs, IsFree());
    SumZero(s.active);
    forall p | 0 <= p < |s.active| ensures Count(s.reqs, OnPort(p)) == 0 { CountZero(s.reqs, OnPort(p)); }
  }

  lemma {:induction false} InitialInv(ports: nat)
    ensures Inv(Initial(ports))
  {
    var s := Initial(ports);
    InitialPool(s, ports);
    forall i | 0 <= i < |s.reqs| ensures ReqExcept(s, i, 0, 0) {
      CountZero(s.reqs, Refers(i));
    }
  }

  // ---- Reference counts

  lemma {:induction false} InvBalanced(s: State)
    requires Inv(s)
    ensures Balanced(s)
  {
    forall x | 0 <= x < |s.reqs| ensures BalancedAt(s, x) { ReqAt(s, x); }
  }

  /** An RRQ that drops its only reference twice. */
  lemma {:induction false} StaleRrqDrops(r: IoReq)
    requires ReqOk(r, 0) && r.alloc && r.cmdType.Els? && IsRrq(r) && r.event.EvElsTmo?
    ensures ElsDrop(Quiesce(r)).refs == -1
  {}

  /** The callback leaves the ELS request itself alone. */
  lemma {:induction false} CompletionLeaves(s: State, x: nat, e: Env)
    requires Sound(s) && x < NUM_TASKS && s.reqs[x].alloc && s.reqs[x].cmdType.Els? && !ElsComplIgnored(s.reqs[x], e)
    ensures ElsCompl(s, x, e).reqs[x] == ElsDrop(Quiesce(s.reqs[x]))
  {
    var s0 := Store(s, x, Quiesce(s.reqs[x]));
    StaleRrqStored(s, x);
    assert s0.reqs[x] == Quiesce(s.reqs[x]);
    ElsCallbacks.CallbackKeeps(s0, x, e);
  }

  lemma {:induction false} StaleRrqBreaks(s: State, x: nat, e: Env)
    requires Inv(s) && x < NUM_TASKS && Hazard(s, GoodCqe(x, e))
    ensures Apply(s, GoodCqe(x, e)).reqs[x].refs == -1
  {
    ReqAt(s, x);
    CompletionLeaves(s, x, e);
    ElsCallbacks.ElsReqOk(s, x);
    StaleRrqDrops(s.reqs[x]);
  }

  lemma {:induction false} StaleRrqStored(s: State, x: nat)
    requires Sound(s) && x < NUM_TASKS && s.reqs[x].alloc && s.reqs[x].cmdType.Els?
    ensures Sound(Store(s, x, Quiesce(s.reqs[x])))
  {
    ReqAt(s, x);
    QuiesceKeeps(s.reqs[x], Incoming(s, x));
    StoreKeeps(s, x, Quiesce(s.reqs[x]));
  }

  /** Nobody holds the reference that the ABTS completion is about to drop: the waiting timeout handler will
      drop it, or the abort was given up and it is dropped already. */
  ghost predicate Forfeit(r: IoReq) { AbtsOut in r.marks && (InAbort !in r.flags || AbtsTmoWait in r.marks) }

  lemma {:induction false} LateAbtsDrops(r: IoReq, inc: int, reply: AbtsReply, token: bool, e: Env)
    requires ReqOk(r, inc) && Forfeit(r) && !e.flushing && r.flushWait.NoFlush? && (r.scCmd.Some? ==> token)
    ensures var o := AbtsCompl(r, reply, token, e);
            o.req.refs == OwnRefs(o.req) + inc - 1 && (Target(o.req) == Target(r) || Target(o.req).None?)
  {
    var r1 := AbtsReplied(AbtsIn(r), reply);
    LateAbtsReplied(r, inc, reply);
    LateAbtsDone(r1, inc, token, e);
  }

  lemma {:induction false} LateAbtsReplied(r: IoReq, inc: int, reply: AbtsReply)
    requires ReqOk(r, inc) && Forfeit(r)
    ensures var r1 := AbtsReplied(AbtsIn(r), reply);
            && r1.refs == OwnRefs(r1) + inc && Target(r1) == Target(r) && !r1.cmdType.Els?
            && (ErrScsiDone in r1.flags ==> r1.scCmd.None?) && r1.scCmd == r.scCmd
  {}

  lemma {:induction false} DoneCounts(r: IoReq, inc: int, token: bool, e: Env)
    requires r.refs == OwnRefs(r) + inc && (ErrScsiDone in r.flags ==> r.scCmd.None?) && !r.cmdType.Els?
    requires r.scCmd.Some? ==> token
    ensures var r' := ScsiDone(r, token, e).req;
            r'.refs == OwnRefs(r') + inc && !r'.cmdType.Els? && (Target(r') == Target(r) || Target(r').None?)
  {}

  lemma {:induction false} DropCounts(r: IoReq, inc: int)
    requires r.refs == OwnRefs(r) + inc && !r.cmdType.Els?
    ensures Put(r).refs == OwnRefs(Put(r)) + inc - 1 && (Target(Put(r)) == Target(r) || Target(Put(r)).None?)
  {
    SameOwn(r);
  }

  lemma {:induction false} SameOwn(r: IoReq)
    requires !r.cmdType.Els?
    ensures OwnRefs(Put(r)) == OwnRefs(r)
  {
    if r.refs == 1 {
      assert Put(r) == Released(r);
    } else {
      assert Put(r) == r.(refs := r.refs - 1);
    }
  }

  lemma {:induction false} LateAbtsDone(r1: IoReq, inc: int, token: bool, e: Env)
    requires r1.refs == OwnRefs(r1) + inc && (ErrScsiDone in r1.flags ==> r1.scCmd.None?) && !r1.cmdType.Els?
    requires r1.scCmd.Some? ==> token
    ensures var r' := AbtsGivesBack(r1, token, e).req;
            r'.refs == OwnRefs(r') + inc - 1 && (Target(r') == Target(r1) || Target(r').None?)
  {
    DoneCounts(r1, inc, token, e);
    DropCounts(ScsiDoneIf(r1, r1.scCmd.Some? && r1.returnOnAbts, token, e).req, inc);
  }

  lemma {:induction false} LateAbtsBreaks(s: State, x: nat, reply: AbtsReply, e: Env)
    requires Inv(s) && Enabled(s, AbtsCqe(x, reply, e)) && Hazard(s, AbtsCqe(x, reply, e))
    ensures var s' := Apply(s, AbtsCqe(x, reply, e)); s'.reqs[x].refs == LiveHolders(s', x) - 1
  {
    ReqAt(s, x);
    LateAbtsDrops(s.reqs[x], Incoming(s, x), reply, Token(s, x), e);
    OneTooFew(s, x, AbtsCompl(s.reqs[x], reply, Token(s, x), e));
  }

  lemma {:induction false} OneTooFew(s: State, x: nat, o: Outcome)
    requires TargetsOk(s) && x < |s.reqs| && (Target(o.req) == Target(s.reqs[x]) || Target(o.req).None?)
    requires o.req.refs == OwnRefs(o.req) + Incoming(s, x) - 1
    ensures var s' := Finish(s, x, o, false); s'.reqs[x].refs == LiveHolders(s', x) - 1
  {
    CountUpdate(s.reqs, Refers(x), x, o.req);
  }

  lemma {:induction false} HazardBreaks(s: State, t: Step)
    requires Inv(s) && Enabled(s, t) && Hazard(s, t)
    ensures !Balanced(Apply(s, t))
  {
    var s' := Apply(s, t);
    match t
    case GoodCqe(x, e) =>
      StaleRrqBreaks(s, x, e);
      assert !BalancedAt(s', x);
    case AbtsCqe(x, reply, e) =>
      LateAbtsBreaks(s, x, reply, e);
      assert !BalancedAt(s', x);
  }

  lemma {:induction false} BalancedIffFrom(s: State, ts: seq<Step>)
    requires Inv(s) && Admissible(s, ts)
    ensures AlwaysBalanced(s, ts) <==> HazardFree(s, ts)
    decreases |ts|
  {
    InvBalanced(s);
    if |ts| > 0 {
      if Hazard(s, ts[0]) {
        HazardBreaks(s, ts[0]);
      } else {
        StepKeeps(s, ts[0]);
        BalancedIffFrom(Apply(s, ts[0]), ts[1..]);
      }
    }
  }

  /** In a run of enabled steps, reference counts equal the number of live holders throughout if and
      only if no step is a hazard. */
  lemma {:induction false} BalancedIff(ports: nat, ts: seq<Step>)
    requires Admissible(Initial(ports), ts)
    ensures AlwaysBalanced(Initial(ports), ts) <==> HazardFree(Initial(ports), ts)
  {
    InitialInv(ports);
    BalancedIffFrom(Initial(ports), ts);
  }

  lemma {:induction false} RunInvFrom(s: State, ts: seq<Step>)
    requires Inv(s) && Admissible(s, ts) && HazardFree(s, ts)
    ensures Inv(After(s, ts))
    decreases |ts|
  {
    if |ts| > 0 {
      StepKeeps(s, ts[0]);
      RunInvFrom(Apply(s, ts[0]), ts[1..]);
    }
  }

  // ---- The pool, in runs without a hazard

  lemma {:induction false} RunInv(ports: nat, ts: seq<Step>)
    requires Admissible(Initial(ports), ts) && HazardFree(Initial(ports), ts)
    ensures Inv(After(Initial(ports), ts))
  {
    InitialInv(ports);
    RunInvFrom(Initial(ports), ts);
  }

  /** Both counters are exact and add up to the pool, the reserve is kept and no port is over its limit. */
  lemma {:induction false} PoolConserved(ports: nat, ts: seq<Step>)
    requires Admissible(Initial(ports), ts) && HazardFree(Initial(ports), ts)
    ensures var s := After(Initial(ports), ts);
            && s.freeCnt == Count(s.reqs, IsFree()) && s.freeCnt + Sum(s.active) == 4096
            && s.freeCnt >= 16
            && (forall p :: 0 <= p < |s.active| ==>
                  s.active[p] == Count(s.reqs, OnPort(p)) && s.active[p] <= 512)
  {
    RunInv(ports, ts);
  }

  /** When rrq_work runs, its request is allocated and has a port: the first error return of
      qedf_send_rrq is never taken. */
  lemma {:induction false} RrqHasPort(ports: nat, ts: seq<Step>, x: nat)
    requires Admissible(Initial(ports), ts) && HazardFree(Initial(ports), ts) && x < NUM_TASKS
    requires RrqWork in After(Initial(ports), ts).reqs[x].pending
    ensures var r := After(Initial(ports), ts).reqs[x]; r.alloc && r.fcport.Some? && r.refs > 0
  {
    RunInv(ports, ts);
    ReqAt(After(Initial(ports), ts), x);
  }

  /** The scan finds the first free request behind the cursor, and cannot fail once the limits allow an
      allocation. */
  lemma {:induction false} ScanSucceeds(ports: nat, ts: seq<Step>, port: nat, e: Env)
    requires Admissible(Initial(ports), ts) && HazardFree(Initial(ports), ts)
    ensures var s := After(Initial(ports), ts);
            && (FreeSlot(s, port, e).Some? <==> e.room && port < |s.active| && s.active[port] < 512 && s.freeCnt > 16)
            && (FreeSlot(s, port, e).Some? ==> NextFree(s, FreeSlot(s, port, e).value))
  {
    RunInv(ports, ts);
    SlotIff(After(Initial(ports), ts), port, e);
  }

  // ---- Commands, in every run

  lemma {:induction false} RunBooksFrom(s: State, ts: seq<Step>)
    requires WellFormed(s) && BooksOk(s) && Admissible(s, ts)
    ensures BooksOk(After(s, ts))
    decreases |ts|
  {
    if |ts| > 0 {
      LawfulStep(s, ts[0]);
      RunBooksFrom(Apply(s, ts[0]), ts[1..]);
    }
  }

  /** No command is given back more often than it was accepted, and no two requests own one command. */
  lemma {:induction false} AtMostOnce(ports: nat, ts: seq<Step>)
    requires Admissible(Initial(ports), ts)
    ensures var s := After(Initial(ports), ts);
            && (forall c: nat :: Count(s.log, GivesBack(c)) <= Count(s.log, Accepts(c)))
            && (forall i, j :: 0 <= i < |s.reqs| && 0 <= j < |s.reqs| && s.reqs[i].scCmd.Some? ==>
                  s.reqs[i].scCmd == s.reqs[j].scCmd ==> i == j)
  {
    InitialInv(ports);
    RunBooksFrom(Initial(ports), ts);
    var s := After(Initial(ports), ts);
    forall c: nat ensures Count(s.log, GivesBack(c)) <= Count(s.log, Accepts(c)) {
      assert Count(s.log, GivesBack(c)) + One(Holds(s, c)) <= Count(s.log, Accepts(c));
    }
  }

  /** Life `l` of the request is over, or an abort, a cleanup or an ELS has taken it over. */
  ghost predicate Left(r: IoReq, l: nat) {
    r.life > l || (r.life == l && r.alloc && !r.cmdType.ScsiCmd?)
  }

  /** Normal completions of request `x` in its life `l`. */
  function NormalFor(x: nat, l: nat): (p: LogEntry -> bool) {
    (e: LogEntry) => e.Returned? && e.req == x && e.life == l && e.normal
  }

  /** Starting an abort or a cleanup is such a takeover. */
  lemma {:induction false} AbortTakesOver(r: IoReq, returnCmd: bool, e: Env)
    requires r.alloc
    ensures AbtsStarts(r, e) ==> Left(InitiateAbts(r, returnCmd, e), r.life)
    ensures CleanupWaits(r, e) ==> Left(CleanupBegin(r, returnCmd, e), r.life)
  {}

  lemma {:induction false} NormalStep(s: State, t: Step, x: nat, l: nat)
    requires WellFormed(s) && Enabled(s, t) && x < NUM_TASKS && Left(s.reqs[x], l)
    ensures var s' := Apply(s, t);
            Left(s'.reqs[x], l) && Count(s'.log, NormalFor(x, l)) == Count(s.log, NormalFor(x, l))
  {
    LawfulStep(s, t);
    var s' := Apply(s, t);
    assert Ages(s.reqs[x], s'.reqs[x]);
    if s'.log != s.log {
      var e :| s'.log == s.log + [e] && EntryOk(s, e);
      CountAppend(s.log, NormalFor(x, l), e);
    }
  }

  /** After the takeover no run returns the command as a normal completion of that life. */
  lemma {:induction false} NoNormalAfterAbort(s: State, ts: seq<Step>, x: nat, l: nat)
    requires WellFormed(s) && Admissible(s, ts) && x < NUM_TASKS && Left(s.reqs[x], l)
    ensures Count(After(s, ts).log, NormalFor(x, l)) == Count(s.log, NormalFor(x, l))
    decreases |ts|
  {
    if |ts| > 0 {
      NormalStep(s, ts[0], x, l);
      NoNormalAfterAbort(Apply(s, ts[0]), ts[1..], x, l);
    }
  }
}
