/** Every command that was accepted is either given back or held by an exchange, exactly until a step loses
    one: the driver forgets a command whose pointers are bad, one whose device is gone, and one that it
    could not post again after a command-lost answer. */
module Accounts {
  import opened Requests
  import opened Exchange
  import opened Holders
  import opened Counting
  import opened ExchangeInvariant
  import opened StepInvariant
  import opened ElsCallbacks
  import opened Frame
  import opened Ledger
  import opened ExchangeTheorems
  import opened Leaks

  /** Acceptances of a command that are neither answered nor in progress. */
  function Owed(s: State, c: nat): (n: int) {
    Count(s.log, Accepts(c)) - Count(s.log, GivesBack(c)) - One(Holds(s, c))
  }

  // ---- What a step loses

  /** What qedf_scsi_done loses: the command of `r`, when a pointer in it is bad (qedf_io.c:1598-1604). */
  function BadDone(r: IoReq, e: Env): (lost: set<nat>) {
    if r.scCmd.Some? && !e.ptr.GoodPtr? then {r.scCmd.value} else {}
  }

  /** What qedf_requeue_io_req loses when the post fails (qedf_els.c:848-857). */
  function RequeueLoses(s: State, x: nat, e: Env): (lost: set<nat>)
    requires WellFormed(s) && x < NUM_TASKS
  {
    var r := s.reqs[x];
    if r.fcport.Some? && r.scCmd.Some? && FreeSlot(s, r.fcport.value, e).Some? && !e.postOk then {r.scCmd.value} else {}
  }

  function CallbackLoses(s: State, cb: Option<CbArg>, ev: Event, e: Env): (lost: set<nat>)
    requires WellFormed(s)
  {
    if cb.Some? && cb.value.aborted.Some? && cb.value.aborted.value < NUM_TASKS && CallsRequeue(cb.value.op, ev, e)
    then RequeueLoses(s, cb.value.aborted.value, e) else {}
  }

  /** The flush loses a command without a device (qedf_io.c:1957-1965), and in recovery one with a bad
      pointer. */
  function FlushLoses(s: State, x: nat, port: nat, e: Env): (lost: set<nat>)
    requires WellFormed(s) && x < NUM_TASKS
  {
    var r := s.reqs[x];
    if FlushesEls(r, port, e) then CallbackLoses(s, r.cb, EvElsFlush, e)
    else if !r.alloc || r.fcport != Some(port) || Outstanding !in r.flags || r.cmdType.Abts? || r.scCmd.None? then {}
    else if e.nullDevice then {r.scCmd.value}
    else if (e.wholeTarget || e.lunMatches) && e.recovery then BadDone(r, e)
    else {}
  }

  function LostBy(s: State, t: Step): (lost: set<nat>)
    requires WellFormed(s) && Enabled(s, t)
  {
    match t
    case GoodCqe(y, e) =>
      var r := s.reqs[y];
      if CqeDispatched(r, e) && r.cmdType.Els? && !ElsComplIgnored(r, e) then CallbackLoses(s, r.cb, r.event, e) else {}
    case AbtsCqe(x, _, e) =>
      if CqeDispatched(s.reqs[x], e) && !e.flushing && s.reqs[x].returnOnAbts then BadDone(s.reqs[x], e) else {}
    case AbtsTmoResumes(x, e) => if s.reqs[x].returnOnAbts then BadDone(s.reqs[x], e) else {}
    case FlushVisits(x, port, e) => FlushLoses(s, x, port, e)
    case FlushResumes(x, e) =>
      if s.reqs[x].flushWait.FlushEls? then CallbackLoses(s, s.reqs[x].cb, EvElsFlush, e)
      else if s.reqs[x].returnOnAbts then BadDone(s.reqs[x], e)
      else {}
    case EhAborts(x, e) => if AbtsStarts(s.reqs[x], e) then {} else BadDone(s.reqs[x], e)
    case _ => {}
  }

  // ---- One request

  /** The command that goes without being given back. */
  function Gone(r: IoReq, o: Outcome): (lost: set<nat>) {
    if r.scCmd.Some? && o.req.scCmd.None? && o.done.None? then {r.scCmd.value} else {}
  }

  lemma {:induction false} DoneLoses(r: IoReq, inc: int, token: bool, e: Env)
    requires ReqOk(r, inc) && r.alloc && (r.scCmd.Some? ==> token)
    ensures Gone(r, ScsiDone(r, token, e)) == BadDone(r, e) && GivesUp(r, ScsiDone(r, token, e))
  {}

  lemma {:induction false} AbtsLoses(r: IoReq, inc: int, reply: AbtsReply, token: bool, e: Env)
    requires ReqOk(r, inc) && r.alloc && (r.scCmd.Some? ==> token)
    ensures var o := AbtsCompl(r, reply, token, e);
            GivesUp(r, o) && Gone(r, o) == if !e.flushing && r.returnOnAbts then BadDone(r, e) else {}
  {}

  lemma {:induction false} CleanupLoses(r: IoReq, inc: int, token: bool, e: Env)
    requires ReqOk(r, inc) && r.alloc && (r.scCmd.Some? ==> token)
    ensures var o := CleanupEnd(r, token, e);
            GivesUp(r, o) && Gone(r, o) == if r.returnOnAbts then BadDone(r, e) else {}
  {}

  lemma {:induction false} TimeoutEndLoses(r: IoReq, inc: int, token: bool, e: Env)
    requires ReqOk(r, inc) && r.alloc && (r.scCmd.Some? ==> token)
    ensures var o := AbtsTimeoutEnd(r, token, e);
            GivesUp(r, o) && Gone(r, o) == if r.returnOnAbts then BadDone(r, e) else {}
  {
    CleanupLoses(r, inc, token, e);
  }

  lemma {:induction false} FlushEndLoses(r: IoReq, inc: int, token: bool, e: Env)
    requires ReqOk(r, inc) && r.alloc && (r.scCmd.Some? ==> token)
    ensures var o := FlushScsiEnd(r, token, e);
            GivesUp(r, o) && Gone(r, o) == if r.returnOnAbts then BadDone(r, e) else {}
  {
    CleanupLoses(r, inc, token, e);
  }

  lemma {:induction false} EhLoses(r: IoReq, inc: int, token: bool, e: Env)
    requires ReqOk(r, inc) && r.alloc && (r.scCmd.Some? ==> token)
    ensures var o := EhAbort(r, token, e); GivesUp(r, o) && Gone(r, o) == if AbtsStarts(r, e) then {} else BadDone(r, e)
  {
    DoneLoses(r, inc, token, e);
  }

  lemma {:induction false} FlushScsiLoses(r: IoReq, inc: int, token: bool, e: Env)
    requires ReqOk(r, inc) && r.alloc && (r.scCmd.Some? ==> token)
    ensures var o := FlushScsiVisit(r, token, e);
            && GivesUp(r, o)
            && Gone(r, o) == (if r.scCmd.None? then {} else if e.nullDevice then {r.scCmd.value}
                              else if (e.wholeTarget || e.lunMatches) && e.recovery then BadDone(r, e) else {})
  {}

  lemma {:induction false} SameCommand(r: IoReq, e: Env)
    ensures FlushNotOutstanding(r).scCmd == r.scCmd && AbtsTimeout(r, e).scCmd == r.scCmd
  {}

  lemma {:induction false} FlushedAbts(r: IoReq, e: Env)
    ensures FlushAbtsVisit(r, e).scCmd == r.scCmd
  {
    FlushedHeld(CancelRrq(Get(r)), e);
  }

  lemma {:induction false} FlushedHeld(r: IoReq, e: Env)
    ensures FlushAbtsHeld(r, e).scCmd == r.scCmd
  {}

  // ---- The pool

  lemma {:induction false} OwedStore(s: State, x: nat, r: IoReq, c: nat)
    requires x < |s.reqs| && r.scCmd == s.reqs[x].scCmd
    ensures Owed(Store(s, x, r), c) == Owed(s, c) && Owed(Settle(s, x, r), c) == Owed(s, c)
  {}

  lemma {:induction false} OwedFinish(s: State, x: nat, o: Outcome, normal: bool, c: nat)
    requires ScpOk(s) && x < |s.reqs| && GivesUp(s.reqs[x], o)
    ensures Owed(Finish(s, x, o, normal), c) == Owed(s, c) + One(c in Gone(s.reqs[x], o))
  {
    if s.reqs[x].scCmd.Some? { assert Holds(s, s.reqs[x].scCmd.value) && s.scp[s.reqs[x].scCmd.value] == x; }
    if o.done.Some? {
      var l := Returned(o.done.value, x, s.reqs[x].life, normal);
      CountAppend(s.log, GivesBack(c), l);
      CountAppend(s.log, Accepts(c), l);
    }
  }

  lemma {:induction false} OwedSame(s: State, s': State, c: nat)
    requires Sound(s) && SameCmds(s, s')
    ensures Owed(s', c) == Owed(s, c)
  {
    if c in s.scp && s.scp[c] < |s.reqs| { ReqAt(s, s.scp[c]); }
  }

  // ---- Posting

  /** Command `c` has been hung on request `n`, which had none; if the post failed it hangs nowhere. */
  ghost predicate Rehung(s: State, s': State, n: nat, c: nat, posted: bool) {
    && n < |s.reqs| == |s'.reqs| && s'.scp == s.scp[c := n] && s.reqs[n].scCmd.None?
    && s'.reqs[n].scCmd == (if posted then Some(c) else None)
    && forall i :: 0 <= i < |s.reqs| && i != n ==>
         s'.reqs[i].scCmd == s.reqs[i].scCmd || (s.reqs[i].scCmd == Some(c) && s'.reqs[i].scCmd.None?)
  }

  lemma {:induction false} RehungHolds(s: State, s': State, n: nat, c: nat, posted: bool, d: nat)
    requires Rehung(s, s', n, c, posted)
    ensures Holds(s', d) == if d == c then posted else Holds(s, d)
  {}

  lemma {:induction false} PostHangs(s: State, n: nat, port: nat, c: nat, e: Env)
    requires WellFormed(s) && n < NUM_TASKS && port < |s.active| && s.reqs[n].scCmd.None?
    ensures Rehung(s, PostOn(s, n, port, c, e), n, c, e.postOk) && PostOn(s, n, port, c, e).log == s.log
  {}

  lemma {:induction false} OwedPost(s: State, n: nat, port: nat, c: nat, e: Env, d: nat)
    requires WellFormed(s) && n < NUM_TASKS && port < |s.active| && s.reqs[n].scCmd.None? && !Holds(s, c)
    ensures Owed(PostOn(s, n, port, c, e), d) == Owed(s, d) - One(d == c && e.postOk)
  {
    PostHangs(s, n, port, c, e);
    RehungHolds(s, PostOn(s, n, port, c, e), n, c, e.postOk, d);
  }

  lemma {:induction false} OwedAccept(s: State, c: nat, d: nat)
    ensures Owed(s.(log := s.log + [Accepted(c)]), d) == Owed(s, d) + One(d == c)
  {
    CountAppend(s.log, GivesBack(d), Accepted(c));
    CountAppend(s.log, Accepts(d), Accepted(c));
  }

  lemma {:induction false} OwedQueue(s: State, port: nat, c: nat, e: Env, d: nat)
    requires Inv(s) && !Holds(s, c)
    ensures Owed(QueueCmd(s, port, c, e), d) == Owed(s, d)
  {
    var n := FreeSlot(s, port, e);
    if n.Some? {
      ReqAt(s, n.value);
      if e.postOk {
        var s0 := s.(log := s.log + [Accepted(c)]);
        OwedAccept(s, c, d);
        OwedPost(s0, n.value, port, c, e, d);
      } else {
        OwedPost(s, n.value, port, c, e, d);
      }
    }
  }

  lemma {:induction false} RequeueHangs(s: State, x: nat, n: nat, port: nat, e: Env)
    requires WellFormed(s) && x < NUM_TASKS && s.reqs[x].scCmd.Some?
    requires n < NUM_TASKS && port < |s.active| && s.reqs[n].scCmd.None?
    ensures var s1 := TakeFresh(s, n, port, ScsiCmd); var c := s.reqs[x].scCmd.value;
            var s2 := PostTaken(Store(s1, x, Put(Unbind(s1.reqs[x]))), n, c, e);
            Rehung(s, s2, n, c, e.postOk) && s2.log == s.log
  {}

  lemma {:induction false} OwedRequeue(s: State, x: nat, e: Env, d: nat)
    requires Sound(s) && x < NUM_TASKS
    ensures Owed(Requeue(s, x, e), d) == Owed(s, d) + One(d in RequeueLoses(s, x, e))
  {
    var r := s.reqs[x];
    if r.fcport.Some? && r.scCmd.Some? {
      var n := FreeSlot(s, r.fcport.value, e);
      if n.Some? { OwedMoved(s, x, n.value, r.fcport.value, e, d); }
    }
  }

  lemma {:induction false} OwedMoved(s: State, x: nat, n: nat, port: nat, e: Env, d: nat)
    requires Sound(s) && x < NUM_TASKS && s.reqs[x].scCmd.Some?
    requires n < NUM_TASKS && port < |s.active| && !s.reqs[n].alloc
    ensures var s1 := TakeFresh(s, n, port, ScsiCmd); var c := s.reqs[x].scCmd.value;
            var s2 := PostTaken(Store(s1, x, Put(Unbind(s1.reqs[x]))), n, c, e);
            && Owed(s2, d) == Owed(s, d) + One(d == c && !e.postOk)
            && Owed(Store(s2, x, InitiateAbts(s2.reqs[x], false, e)), d) == Owed(s2, d)
  {
    var s1, c := TakeFresh(s, n, port, ScsiCmd), s.reqs[x].scCmd.value;
    var s2 := PostTaken(Store(s1, x, Put(Unbind(s1.reqs[x]))), n, c, e);
    ReqAt(s, n);
    ReqAt(s, x);
    assert Holds(s, c);
    RequeueHangs(s, x, n, port, e);
    RehungHolds(s, s2, n, c, e.postOk, d);
    OwedStore(s2, x, InitiateAbts(s2.reqs[x], false, e), d);
  }

  // ---- ELS callbacks

  lemma {:induction false} OwedAnswered(s: State, x: nat, e: Env, d: nat)
    requires Sound(s) && x < NUM_TASKS && e.reply.CommandLost?
    ensures Owed(RecAnswered(s, x, e), d) == Owed(s, d) + One(d in RequeueLoses(s, x, e))
  {
    var s1 := Store(s, x, StopTimer(s.reqs[x]));
    TimerStopped(s, x);
    OwedStore(s, x, StopTimer(s.reqs[x]), d);
    LosesSame(s, s1, x, e);
    OwedRequeue(s1, x, e, d);
  }

  lemma {:induction false} LosesSame(s: State, s': State, x: nat, e: Env)
    requires WellFormed(s) && SameSlots(s, s') && x < NUM_TASKS
    ensures RequeueLoses(s', x, e) == RequeueLoses(s, x, e)
  {
    assert SameHold(s.reqs[x], s'.reqs[x]);
    if s.reqs[x].fcport.Some? { SlotsSame(s, s', s.reqs[x].fcport.value, e); }
  }

  lemma {:induction false} OwedCallback(s: State, y: nat, e: Env, d: nat)
    requires Sound(s) && y < NUM_TASKS && ElsWaiting(s.reqs[y])
    ensures var r := s.reqs[y];
            Owed(Callback(s, r.cb, r.event, e), d) == Owed(s, d) + One(d in CallbackLoses(s, r.cb, r.event, e))
  {
    var r := s.reqs[y];
    CalledAs(s, y, e);
    if Target(r).Some? && CallsRequeue(r.cb.value.op, r.event, e) {
      var x := Target(r).value;
      var s1 := RecAnswered(s, x, e);
      OwedAnswered(s, x, e, d);
      OwedStore(s1, x, Put(s1.reqs[x]), d);
    } else {
      TidyCallback(s, y, e);
      OwedSame(s, Callback(s, r.cb, r.event, e), d);
    }
  }

  lemma {:induction false} OwedRun(s: State, y: nat, r: IoReq, r': IoReq, e: Env, d: nat)
    requires Poised(s, y, r, r', e)
    ensures Owed(Ended(s, y, r, r', e), d) == Owed(s, d) + One(d in CallbackLoses(s, r.cb, r.event, e))
  {
    var s0 := Store(s, y, r);
    assert s0.reqs[y] == r;
    OwedStore(s, y, r, d);
    OwedCallback(s0, y, e, d);
    CallbackLosesSame(s, s0, r.cb, r.event, e);
    OwedStore(RunCallback(s, y, r, e), y, r', d);
  }

  lemma {:induction false} CallbackLosesSame(s: State, s': State, cb: Option<CbArg>, ev: Event, e: Env)
    requires WellFormed(s) && SameSlots(s, s')
    ensures CallbackLoses(s', cb, ev, e) == CallbackLoses(s, cb, ev, e)
  {
    if cb.Some? && cb.value.aborted.Some? && cb.value.aborted.value < NUM_TASKS {
      LosesSame(s, s', cb.value.aborted.value, e);
    }
  }

  // The five ways an ELS request ends

  lemma {:induction false} OwedElsCompl(s: State, y: nat, e: Env, d: nat)
    requires Inv(s) && y < NUM_TASKS && s.reqs[y].alloc && s.reqs[y].cmdType.Els?
    requires !ElsComplIgnored(s.reqs[y], e) && !(IsRrq(s.reqs[y]) && s.reqs[y].event.EvElsTmo?)
    ensures Owed(ElsCompl(s, y, e), d) == Owed(s, d) + One(d in CallbackLoses(s, s.reqs[y].cb, s.reqs[y].event, e))
  {
    CompletionPoised(s, y, e);
    OwedRun(s, y, Quiesce(s.reqs[y]), ElsDrop(Quiesce(s.reqs[y])), e, d);
  }

  lemma {:induction false} OwedElsTimeout(s: State, y: nat, e: Env, d: nat)
    requires Inv(s) && y < NUM_TASKS && s.reqs[y].alloc && s.reqs[y].cmdType.Els?
    ensures Owed(ElsTimeout(s, y, e), d) == Owed(s, d)
  {
    var c := CleanupBegin(Quiesce(Get(s.reqs[y])), true, e);
    if CleanupWaits(Quiesce(Get(s.reqs[y])), e) {
      OwedStore(s, y, ElsTmoSuspends(c), d);
    } else {
      TimeoutPoised(s, y, e);
      OwedRun(s.(running := Some(y)), y, WithEvent(c, EvElsTmo), ElsTmoDrop(WithEvent(c, EvElsTmo)), e, d);
    }
  }

  lemma {:induction false} OwedLateTimeout(s: State, y: nat, e: Env, d: nat)
    requires Inv(s) && y < NUM_TASKS && ElsTmoWait in s.reqs[y].marks
    ensures Owed(ElsTmoResumed(s, y, e), d) == Owed(s, d)
  {
    var r := WithEvent(CleanupEnd(s.reqs[y], false, e).req, EvElsTmo);
    LateTimeoutPoised(s, y, e);
    OwedRun(s, y, r, ElsTmoDrop(r), e, d);
  }

  lemma {:induction false} OwedFlushEls(s: State, y: nat, e: Env, d: nat)
    requires Inv(s) && y < NUM_TASKS && s.reqs[y].alloc && s.reqs[y].cmdType.Els?
    ensures Owed(FlushElsVisit(s, y, e), d) == Owed(s, d)
              + One(!CleanupWaits(Get(s.reqs[y]), e) && d in CallbackLoses(s, s.reqs[y].cb, EvElsFlush, e))
  {
    var c := CleanupBegin(Get(s.reqs[y]), false, e);
    ElsReqOk(s, y);
    if CleanupWaits(Get(s.reqs[y]), e) {
      OwedStore(s, y, FlushElsSuspends(c), d);
    } else {
      var s0, r := s.(running := Some(y)), WithEvent(Quiesce(c), EvElsFlush);
      FlushPoised(s, y, e);
      CallbackLosesSame(s, s0, s.reqs[y].cb, EvElsFlush, e);
      OwedRun(s0, y, r, ElsFlushDrop(r), e, d);
    }
  }

  lemma {:induction false} OwedLateFlush(s: State, y: nat, e: Env, d: nat)
    requires Inv(s) && y < NUM_TASKS && s.reqs[y].flushWait.FlushEls?
    ensures Owed(FlushElsResumed(s, y, e), d) == Owed(s, d) + One(d in CallbackLoses(s, s.reqs[y].cb, EvElsFlush, e))
  {
    var r := WithEvent(Quiesce(CleanupEnd(s.reqs[y], false, e).req), EvElsFlush);
    LateFlushPoised(s, y, e);
    OwedRun(s, y, r, ElsFlushDrop(r), e, d);
  }

  // ---- Steps

  lemma {:induction false} OwedGood(s: State, x: nat, e: Env, d: nat)
    requires Inv(s) && x < NUM_TASKS && !Hazard(s, GoodCqe(x, e))
    ensures Owed(Good(s, x, e), d) == Owed(s, d) + One(d in LostBy(s, GoodCqe(x, e)))
  {
    var r := s.reqs[x];
    ReqAt(s, x);
    if CqeDispatched(r, e) {
      if r.cmdType.ScsiCmd? {
        OwedFinish(s, x, ScsiCompletion(r, Token(s, x), e), true, d);
      } else if r.cmdType.Els? && !ElsComplIgnored(r, e) {
        OwedElsCompl(s, x, e, d);
      }
    }
  }

  lemma {:induction false} OwedCqe(s: State, t: Step, d: nat)
    requires Inv(s) && Enabled(s, t) && (t.ErrorCqe? || t.WarningCqe? || t.CleanupCqe? || t.AbtsCqe?)
    ensures Owed(Apply(s, t), d) == Owed(s, d) + One(d in LostBy(s, t))
  {
    match t
    case ErrorCqe(x, e) => OwedStore(s, x, InitiateAbts(s.reqs[x], true, e), d);
    case WarningCqe(x, recTov, e) => OwedWarning(s, x, recTov, e, d);
    case CleanupCqe(x, e) => OwedStore(s, x, CleanupDone(s.reqs[x]), d);
    case AbtsCqe(x, reply, e) => OwedAbts(s, x, reply, e, d);
  }

  lemma {:induction false} OwedAbts(s: State, x: nat, reply: AbtsReply, e: Env, d: nat)
    requires Inv(s) && Enabled(s, AbtsCqe(x, reply, e))
    ensures Owed(AbtsAnswered(s, x, reply, e), d) == Owed(s, d) + One(d in LostBy(s, AbtsCqe(x, reply, e)))
  {
    ReqAt(s, x);
    AbtsLoses(s.reqs[x], Incoming(s, x), reply, Token(s, x), e);
    OwedFinish(s, x, AbtsCompl(s.reqs[x], reply, Token(s, x), e), false, d);
  }

  lemma {:induction false} OwedWarning(s: State, x: nat, recTov: bool, e: Env, d: nat)
    requires Inv(s) && x < NUM_TASKS && (recTov ==> !IsElsTask(s.reqs[x]))
    ensures Owed(Warned(s, x, recTov, e), d) == Owed(s, d)
  {
    ReqAt(s, x);
    OwedStore(s, x, InitiateAbts(s.reqs[x], true, e), d);
    if CqeDispatched(s.reqs[x], e) && recTov {
      StillRec(s, x, e);
      OwedSame(s, SendRec(s, x, e), d);
    }
  }

  lemma {:induction false} OwedTimer(s: State, x: nat, e: Env, d: nat)
    requires Inv(s) && x < NUM_TASKS
    ensures Owed(Timer(s, x, e), d) == Owed(s, d)
  {
    var r := s.reqs[x];
    ReqAt(s, x);
    SameCommand(r, e);
    if r.fcport.Some? && r.cmdType.Abts? {
      OwedStore(s, x, AbtsTimeout(r, e), d);
    } else if r.fcport.Some? && r.cmdType.Els? {
      OwedElsTimeout(s, x, e, d);
    } else {
      OwedStore(s, x, StopTimer(r), d);
    }
  }

  lemma {:induction false} OwedRrq(s: State, x: nat, e: Env, d: nat)
    requires Inv(s) && x < NUM_TASKS
    ensures Owed(SendRrq(s, x, e), d) == Owed(s, d)
  {
    OwedStore(s, x, Abandon(RrqBegin(s.reqs[x])), d);
    if s.reqs[x].fcport.None? || (e.ready && s.reqs[x].refs == 1) {
      StillRrq(s, x, e);
      OwedSame(s, SendRrq(s, x, e), d);
    }
  }

  lemma {:induction false} OwedFlushVisit(s: State, x: nat, port: nat, e: Env, d: nat)
    requires Inv(s) && x < NUM_TASKS
    ensures Owed(Flush(s, x, port, e), d) == Owed(s, d) + One(d in FlushLoses(s, x, port, e))
  {
    var r := s.reqs[x];
    ReqAt(s, x);
    if r.alloc && r.fcport == Some(port) {
      SameCommand(r, e);
      if Outstanding !in r.flags {
        OwedStore(s, x, FlushNotOutstanding(r), d);
      } else if r.cmdType.Els? && e.wholeTarget {
        OwedFlushEls(s, x, e, d);
      } else {
        OwedFlushOther(s, x, e, d);
      }
    }
  }

  lemma {:induction false} OwedFlushOther(s: State, x: nat, e: Env, d: nat)
    requires Inv(s) && x < NUM_TASKS && s.reqs[x].alloc
    ensures s.reqs[x].cmdType.Abts? ==> Owed(Store(s, x, FlushAbtsVisit(s.reqs[x], e)), d) == Owed(s, d)
    ensures var r := s.reqs[x]; var o := FlushScsiVisit(r, Token(s, x), e);
            && Owed(Finish(s, x, o, false), d) == Owed(s, d) + One(d in Gone(r, o))
            && Gone(r, o) == (if r.scCmd.None? then {} else if e.nullDevice then {r.scCmd.value}
                              else if (e.wholeTarget || e.lunMatches) && e.recovery then BadDone(r, e) else {})
  {
    var r := s.reqs[x];
    ReqAt(s, x);
    FlushedAbts(r, e);
    OwedStore(s, x, FlushAbtsVisit(r, e), d);
    FlushScsiLoses(r, Incoming(s, x), Token(s, x), e);
    OwedFinish(s, x, FlushScsiVisit(r, Token(s, x), e), false, d);
  }

  lemma {:induction false} OwedResume(s: State, t: Step, d: nat)
    requires Inv(s) && Enabled(s, t) && (t.AbtsTmoResumes? || t.ElsTmoResumes? || t.FlushResumes?)
    ensures Owed(Apply(s, t), d) == Owed(s, d) + One(d in LostBy(s, t))
  {
    match t
    case AbtsTmoResumes(x, e) => OwedResumed(s, x, e, d);
    case ElsTmoResumes(x, e) => OwedLateTimeout(s, x, e, d);
    case FlushResumes(x, e) =>
      if s.reqs[x].flushWait.FlushEls? { OwedLateFlush(s, x, e, d); } else { OwedResumed(s, x, e, d); }
  }

  lemma {:induction false} OwedResumed(s: State, x: nat, e: Env, d: nat)
    requires Inv(s) && x < NUM_TASKS && (AbtsTmoWait in s.reqs[x].marks || !s.reqs[x].flushWait.NoFlush?)
    ensures var r := s.reqs[x]; var lost := One(d in if r.returnOnAbts then BadDone(r, e) else {});
            && Owed(Finish(s, x, AbtsTimeoutEnd(r, Token(s, x), e), false), d) == Owed(s, d) + lost
            && Owed(Finish(s, x, FlushScsiEnd(r, Token(s, x), e), false), d) == Owed(s, d) + lost
  {
    var r := s.reqs[x];
    ReqAt(s, x);
    TimeoutEndLoses(r, Incoming(s, x), Token(s, x), e);
    FlushEndLoses(r, Incoming(s, x), Token(s, x), e);
    OwedFinish(s, x, AbtsTimeoutEnd(r, Token(s, x), e), false, d);
    OwedFinish(s, x, FlushScsiEnd(r, Token(s, x), e), false, d);
  }

  lemma {:induction false} OwedEh(s: State, t: Step, d: nat)
    requires Inv(s) && Enabled(s, t) && (t.EhStarts? || t.EhAborts? || t.EhLeaves?)
    ensures Owed(Apply(s, t), d) == Owed(s, d) + One(d in LostBy(s, t))
  {
    match t
    case EhStarts(c) =>
      if c in s.scp && s.scp[c] < NUM_TASKS { OwedStore(s, s.scp[c], EhBegin(s.reqs[s.scp[c]]), d); }
    case EhAborts(x, e) => OwedEhAbort(s, x, e, d);
    case EhLeaves(x) => OwedStore(s, x, EhEnd(s.reqs[x]), d);
  }

  lemma {:induction false} OwedEhAbort(s: State, x: nat, e: Env, d: nat)
    requires Inv(s) && x < NUM_TASKS && s.reqs[x].eh > 0
    ensures var r := s.reqs[x];
            Owed(Finish(s, x, EhAbort(r, Token(s, x), e), false), d) ==
              Owed(s, d) + One(d in if AbtsStarts(r, e) then {} else BadDone(r, e))
  {
    ReqAt(s, x);
    EhLoses(s.reqs[x], Incoming(s, x), Token(s, x), e);
    OwedFinish(s, x, EhAbort(s.reqs[x], Token(s, x), e), false, d);
  }

  /** A step changes what is owed on a command only by losing it. */
  lemma {:induction false} OwedStep(s: State, t: Step, d: nat)
    requires Inv(s) && Enabled(s, t) && !Hazard(s, t)
    ensures Owed(Apply(s, t), d) == Owed(s, d) + One(d in LostBy(s, t))
  {
    match t
    case Queue(port, c, e) => OwedQueue(s, port, c, e, d);
    case GoodCqe(x, e) => OwedGood(s, x, e, d);
    case ErrorCqe(_, _) => OwedCqe(s, t, d);
    case WarningCqe(_, _, _) => OwedCqe(s, t, d);
    case CleanupCqe(_, _) => OwedCqe(s, t, d);
    case AbtsCqe(_, _, _) => OwedCqe(s, t, d);
    case TimerFires(x, e) => OwedTimer(s, x, e, d);
    case AbtsTmoResumes(_, _) => OwedResume(s, t, d);
    case ElsTmoResumes(_, _) => OwedResume(s, t, d);
    case RrqRuns(x, e) => OwedRrq(s, x, e, d);
    case FlushVisits(x, port, e) => OwedFlushVisit(s, x, port, e, d);
    case FlushResumes(_, _) => OwedResume(s, t, d);
    case EhStarts(_) => OwedEh(s, t, d);
    case EhAborts(_, _) => OwedEh(s, t, d);
    case EhLeaves(_) => OwedEh(s, t, d);
    case SendAdisc(port, e) =>
      StillEls(s, port, CbArg(Adisc, None), e);
      OwedSame(s, InitiateEls(s, port, CbArg(Adisc, None), e), d);
  }

  // ---- Runs

  /** How often the run loses command `c`. */
  ghost function Losses(s: State, ts: seq<Step>, c: nat): (n: nat)
    requires WellFormed(s) && Admissible(s, ts)
    decreases |ts|
  {
    if |ts| == 0 then 0 else One(c in LostBy(s, ts[0])) + Losses(Apply(s, ts[0]), ts[1..], c)
  }

  lemma {:induction false} OwedRunFrom(s: State, ts: seq<Step>, c: nat)
    requires Inv(s) && Admissible(s, ts) && HazardFree(s, ts)
    ensures Owed(After(s, ts), c) == Owed(s, c) + Losses(s, ts, c)
    decreases |ts|
  {
    if |ts| > 0 {
      StepKeeps(s, ts[0]);
      OwedStep(s, ts[0], c);
      OwedRunFrom(Apply(s, ts[0]), ts[1..], c);
    }
  }

  /** The books are exact: in every run without hazards the acceptances of a command are its returns, plus
      one while an exchange holds it, plus the times it was lost. */
  lemma {:induction false} BooksExact(ports: nat, ts: seq<Step>, c: nat)
    requires Admissible(Initial(ports), ts) && HazardFree(Initial(ports), ts)
    ensures var s := After(Initial(ports), ts);
            Count(s.log, Accepts(c)) == Count(s.log, GivesBack(c)) + One(Holds(s, c)) + Losses(Initial(ports), ts, c)
  {
    InitialInv(ports);
    OwedRunFrom(Initial(ports), ts, c);
  }
}
