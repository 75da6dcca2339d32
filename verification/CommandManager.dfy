/** The request pool as the driver has it: request objects updated in place. Every method is proved
    against the step functions of `Exchange`. The bookkeeping of the model is ghost here, so no handler
    can depend on it. */
module CommandManager {
  import opened Requests
  import opened Exchange

  /** The part of the pool that belongs to no single request. */
  datatype Books = Books(freeCnt: int, active: seq<int>, scp: map<nat, nat>, log: seq<LogEntry>)

  /** The books after request `x`, once `r`, has become `o.req` and `o.done` has been given back. */
  ghost function Account(b: Books, x: nat, r: IoReq, o: Outcome, normal: bool): (b': Books) {
    var released := o.req.life > r.life;
    Books(if released then b.freeCnt + 1 else b.freeCnt,
          if released then AfterRelease(b.active, r.fcport) else b.active,
          if o.done.Some? then b.scp - {o.done.value} else b.scp,
          if o.done.Some? then b.log + [Returned(o.done.value, x, r.life, normal)] else b.log)
  }

  /** Two entries for one request come to one. */
  lemma {:induction false} AccountThen(b: Books, x: nat, r: IoReq, o: Outcome, r1: IoReq, r2: IoReq)
    requires if o.req.life == r.life then r1.fcport == r.fcport else r2.life == o.req.life > r.life
    requires r1.life == o.req.life
    ensures Account(Account(b, x, r, o, false), x, r1, Outcome(r2, None), false) ==
            Account(b, x, r, Outcome(r2, o.done), false)
  {}

  /** The cleanup of a request keeps its port or releases it, and a released request is not released again. */
  lemma {:induction false} CleanupReleases(r: IoReq, token: bool, e: Env)
    ensures var r' := CleanupEnd(r, token, e).req;
            if r'.life == r.life then r'.fcport == r.fcport else r'.life == r.life + 1 && r'.refs == 0
  {}

  lemma {:induction false} LeavesReleased(r: IoReq, e: Env)
    ensures FlushCleaned(r, e).life == r.life && FlushCleaned(r, e).fcport == r.fcport
    ensures r.refs == 0 ==> FlushLeaves(FlushCleaned(r, e)).life == r.life
    ensures Cleaned(r, e).life == r.life && Cleaned(r, e).fcport == r.fcport
    ensures r.refs == 0 ==> AbtsTmoLeaves(Cleaned(r, e)).life == r.life
  {}

  lemma {:induction false} TimeoutAccount(b: Books, x: nat, r: IoReq, token: bool, e: Env)
    ensures var o := CleanupEnd(r, token, e);
            var r1 := Cleaned(o.req, e);
            Account(Account(b, x, r, o, false), x, r1, Outcome(AbtsTmoLeaves(r1), None), false) ==
            Account(b, x, r, AbtsTimeoutEnd(r, token, e), false)
  {
    var o := CleanupEnd(r, token, e);
    CleanupReleases(r, token, e);
    LeavesReleased(o.req, e);
    AccountThen(b, x, r, o, Cleaned(o.req, e), AbtsTmoLeaves(Cleaned(o.req, e)));
  }

  lemma {:induction false} FlushAccount(b: Books, x: nat, r: IoReq, token: bool, e: Env)
    ensures var o := CleanupEnd(r, token, e);
            var r1 := FlushCleaned(o.req, e);
            Account(Account(b, x, r, o, false), x, r1, Outcome(FlushLeaves(r1), None), false) ==
            Account(b, x, r, FlushScsiEnd(r, token, e), false)
  {
    var o := CleanupEnd(r, token, e);
    CleanupReleases(r, token, e);
    LeavesReleased(o.req, e);
    AccountThen(b, x, r, o, FlushCleaned(o.req, e), FlushLeaves(FlushCleaned(o.req, e)));
  }

  lemma {:induction false} PostedOnce(s: State, n: nat, c: nat, e: Env)
    requires WellFormed(s) && n < NUM_TASKS
    ensures !e.postOk ==>
      PostTaken(s, n, c, e) == Store(s, n, Put(Unbind(Bind(s.reqs[n], c, false)))).(scp := s.scp[c := n])
  {
    var r := Bind(s.reqs[n], c, false);
    assert s.reqs[n := r][n := Put(Unbind(r))] == s.reqs[n := Put(Unbind(r))];
  }

  lemma {:induction false} ElsInOnePiece(s: State, n: nat, port: nat, arg: CbArg)
    requires WellFormed(s) && n < NUM_TASKS && port < |s.active| && !s.reqs[n].alloc
    ensures var s1, r := TakeFresh(s, n, port, Els), ElsFresh(s.reqs[n], port, arg);
            && Store(s1, n, ElsPosted(r)) == Take(s, n, port, ElsPosted(r))
            && Store(s1, n, Put(r)) == Store(Take(s, n, port, r), n, Put(r))
  {
    var f, r := Fresh(s.reqs[n], port, Els), ElsFresh(s.reqs[n], port, arg);
    assert s.reqs[n := f][n := ElsPosted(r)] == s.reqs[n := ElsPosted(r)];
    assert s.reqs[n := f][n := Put(r)] == s.reqs[n := Put(r)] == s.reqs[n := r][n := Put(r)];
  }

  /** `struct qedf_ioreq`. */
  class Request {
    const xid: nat
    var alloc: bool
    var fcport: Option<nat>
    var refs: int
    var cmdType: CmdType
    var scCmd: Option<nat>
    var cb: Option<CbArg>
    var flags: set<Flag>
    var event: Event
    var state: ReqState
    var returnOnAbts: bool
    var pending: set<Work>
    ghost var life: nat
    ghost var marks: set<Mark>
    ghost var flushWait: FlushWait
    ghost var eh: nat
    ghost var abandoned: nat

    constructor (xid: nat)
      ensures this.xid == xid && V() == FREE_REQ
    {
      this.xid := xid;
      alloc, fcport, refs, cmdType, scCmd, cb := false, None, 0, ScsiCmd, None, None;
      flags, event, state, returnOnAbts, pending := {}, EvNone, Inactive, false, {};
      life, marks, flushWait, eh, abandoned := 0, {}, NoFlush, 0, 0;
    }

    ghost function V(): IoReq
      reads this
    {
      IoReq(alloc, fcport, refs, cmdType, scCmd, cb, flags, event, state, returnOnAbts, pending,
            life, marks, flushWait, eh, abandoned)
    }

    /** The fields that qedf_alloc_cmd writes. */
    method Init(port: nat, t: CmdType)
      modifies this
      ensures V() == Fresh(old(V()), port, t)
    {
      state := IoActive;
      fcport := Some(port);
      flags := {};
      refs := 1;
      cmdType := t;
      scCmd := None;
      alloc := true;
    }

    /** qedf_release_cmd. */
    method Release(m: Manager)
      modifies this`alloc, this`fcport, this`state, this`life, this`marks, m`freeCnt, m`active
      ensures V() == Released(old(V())).(refs := old(refs))
      ensures m.B() == Account(old(m.B()), xid, old(V()), Outcome(V(), None), false)
    {
      m.freeCnt := m.freeCnt + 1;
      m.active := AfterRelease(m.active, fcport);
      state := Inactive;
      fcport := None;
      alloc := false;
      life := life + 1;
      marks := marks - {AbtsOut};
    }

    method KrefPut(m: Manager)
      modifies this`refs, this`alloc, this`fcport, this`state, this`life, this`marks, m`freeCnt, m`active
      ensures V() == Put(old(V()))
      ensures m.B() == Account(old(m.B()), xid, old(V()), Outcome(V(), None), false)
    {
      refs := refs - 1;
      if refs == 0 { Release(m); }
    }

    /** The request's part of qedf_post_io_req. */
    method Post(m: Manager, c: nat, ok: bool)
      modifies this, m`freeCnt, m`active
      ensures V() == if ok then Bind(old(V()), c, true) else Put(Unbind(Bind(old(V()), c, false)))
      ensures m.B() == Account(old(m.B()), xid, old(V()), Outcome(V(), None), false)
    {
      scCmd := Some(c);
      if ok {
        flags := flags + {Outstanding};
      } else {
        scCmd := None;
        KrefPut(m);
      }
    }

    /** qedf_scsi_done. */
    method ScsiDone(m: Manager, e: Env)
      modifies this`flags, this`scCmd, this`refs, this`alloc, this`fcport, this`state, this`life, this`marks
      modifies m`freeCnt, m`active, m`scp, m`log
      ensures var o := Requests.ScsiDone(old(V()), old(HasToken(m)), e);
              V() == o.req && m.B() == Account(old(m.B()), xid, old(V()), o, false)
    {
      if ErrScsiDone in flags { return; }
      flags := flags + {ErrScsiDone};
      flags := flags - {Outstanding};
      if scCmd.None? { return; }
      var c := scCmd.value;
      if !e.ptr.BadAddress? && c !in m.scp { return; }
      scCmd := None;
      if e.ptr.GoodPtr? {
        m.scp := m.scp - {c};
        m.log := m.log + [Returned(c, xid, life, false)];
      }
      KrefPut(m);
    }

    /** SCp.ptr of the request's command is set. */
    predicate HasToken(m: Manager)
      reads this, m
    {
      scCmd.Some? && scCmd.value in m.scp
    }

    /** qedf_scsi_completion. */
    method ScsiCompletion(m: Manager, e: Env)
      modifies this, m`freeCnt, m`active, m`scp, m`log
      ensures var o := Requests.ScsiCompletion(old(V()), old(HasToken(m)), e);
              V() == o.req && m.B() == Account(old(m.B()), xid, old(V()), o, true)
    {
      if Outstanding !in flags || InCleanup in flags || InAbort in flags { return; }
      if scCmd.None? || scCmd.value !in m.scp || !e.ptr.GoodPtr? || e.flushing { return; }
      flags := flags - {Outstanding};
      var c := scCmd.value;
      scCmd := None;
      m.scp := m.scp - {c};
      m.log := m.log + [Returned(c, xid, life, true)];
      KrefPut(m);
    }

    /** qedf_initiate_abts. */
    method InitiateAbts(returnCmd: bool, e: Env) returns (started: bool)
      modifies this`refs, this`cmdType, this`returnOnAbts, this`flags, this`pending, this`marks
      ensures V() == Requests.InitiateAbts(old(V()), returnCmd, e) && started == AbtsStarts(old(V()), e)
    {
      if !e.ready || !e.canAbort || !e.room { return false; }
      if Outstanding !in flags || InCleanup in flags || InAbort in flags { return false; }
      EnterAbort(returnCmd);
      return true;
    }

    method EnterAbort(returnCmd: bool)
      modifies this`refs, this`cmdType, this`returnOnAbts, this`flags, this`pending, this`marks
      ensures V() == Requests.EnterAbort(old(V()), returnCmd)
    {
      marks := if cmdType.Els? then marks + {AbtsOut, ElsAborted} else marks + {AbtsOut};
      cmdType := Abts;
      refs := refs + 1;
      returnOnAbts := returnCmd;
      flags := flags + {InAbort};
      pending := pending + {TimeoutWork};
    }

    /** cancel_delayed_work(&io_req->timeout_work). */
    method CancelTimer()
      modifies this`pending
      ensures V() == StopTimer(old(V()))
    {
      pending := pending - {TimeoutWork};
    }

    method LeaveAbort()
      modifies this`flags
      ensures V() == Requests.LeaveAbort(old(V()))
    {
      flags := flags - {InAbort};
    }

    method AbtsEnds()
      modifies this`flags, this`marks
      ensures V() == Requests.LeaveAbort(old(V())).(marks := old(marks) - {AbtsOut})
    {
      LeaveAbort();
      marks := marks - {AbtsOut};
    }

    /** A cleanup that did not time out has also taken the ABTS. */
    ghost method AbtsTaken(e: Env)
      modifies this`marks
      ensures V() == Cleaned(old(V()), e)
    {
      if !e.timedOut { marks := marks - {AbtsOut}; }
    }

    /** qedf_process_abts_compl. */
    method AbtsCompl(m: Manager, reply: AbtsReply, e: Env)
      modifies this, m`freeCnt, m`active, m`scp, m`log
      ensures var o := Requests.AbtsCompl(old(V()), reply, old(HasToken(m)), e);
              V() == o.req && m.B() == Account(old(m.B()), xid, old(V()), o, false)
    {
      if fcport.None? || e.flushing { return; }
      CancelTimer();
      if reply.BaAcc? && refs == 0 {
        event := EvAbortSuccess;
        return;
      }
      AbtsEnds();
      assert V() == AbtsIn(old(V()));
      AbtsTakesEffect(m, reply, e);
    }

    /** The switch on the answer, and what follows it. */
    method AbtsTakesEffect(m: Manager, reply: AbtsReply, e: Env)
      modifies this, m`freeCnt, m`active, m`scp, m`log
      ensures var o := AbtsGivesBack(AbtsReplied(old(V()), reply), old(HasToken(m)), e);
              V() == o.req && m.B() == Account(old(m.B()), xid, old(V()), o, false)
    {
      Answered(reply);
      GivesBack(m, e);
    }

    method GivesBack(m: Manager, e: Env)
      modifies this`flags, this`scCmd, this`refs, this`alloc, this`fcport, this`state, this`life, this`marks
      modifies m`freeCnt, m`active, m`scp, m`log
      ensures var o := AbtsGivesBack(old(V()), old(HasToken(m)), e);
              V() == o.req && m.B() == Account(old(m.B()), xid, old(V()), o, false)
    {
      DoneAndPut(m, scCmd.Some? && returnOnAbts, e);
    }

    /** Gives the command back if `call`, and drops one reference. */
    method DoneAndPut(m: Manager, call: bool, e: Env)
      modifies this`flags, this`scCmd, this`refs, this`alloc, this`fcport, this`state, this`life, this`marks
      modifies m`freeCnt, m`active, m`scp, m`log
      ensures var o := ScsiDoneIf(old(V()), call, old(HasToken(m)), e); V() == Put(o.req)
      ensures var o := ScsiDoneIf(old(V()), call, old(HasToken(m)), e);
              m.B() == Account(old(m.B()), xid, old(V()), Outcome(Put(o.req), o.done), false)
    {
      if call { ScsiDone(m, e); }
      KrefPut(m);
    }

    method Answered(reply: AbtsReply)
      modifies this`refs, this`event, this`state, this`pending, this`abandoned
      ensures V() == AbtsReplied(old(V()), reply)
    {
      match reply {
        case BaAcc =>
          event := EvAbortSuccess;
          refs := refs + 1;
          abandoned := abandoned + if RrqWork in pending then 1 else 0;
          pending := pending + {RrqWork};
          state := RrqWait;
        case BaRjt =>
          event := EvAbortFailed;
        case BaOther =>
      }
    }

    /** qedf_initiate_cleanup up to its wait; `waits` tells whether it gets there. */
    method InitiateCleanup(returnCmd: bool, e: Env) returns (waits: bool)
      modifies this`cmdType, this`returnOnAbts, this`flags
      ensures V() == CleanupBegin(old(V()), returnCmd, e) && waits == CleanupWaits(old(V()), e)
    {
      if fcport.None? || !e.ready { return false; }
      if !cmdType.Els? {
        if Outstanding !in flags || InCleanup in flags { return false; }
        flags := flags + {InCleanup};
      }
      if !e.room || cmdType.Cleanup? {
        flags := flags - {InCleanup};
        assert !old(cmdType.Els?) ==> flags == old(flags) - {InCleanup};
        return false;
      }
      cmdType := Cleanup;
      returnOnAbts := returnCmd;
      return true;
    }

    /** qedf_initiate_cleanup from its wait on. */
    method FinishCleanup(m: Manager, e: Env)
      modifies this, m`freeCnt, m`active, m`scp, m`log
      ensures var o := CleanupEnd(old(V()), old(HasToken(m)), e);
              V() == o.req && m.B() == Account(old(m.B()), xid, old(V()), o, false)
    {
      if e.timedOut { flags := flags - {InCleanup}; }
      if scCmd.Some? && returnOnAbts { ScsiDone(m, e); }
      event := if e.timedOut then EvCleanupFailed else EvCleanupSuccess;
    }

    /** The ABTS case of qedf_cmd_timeout, up to the wait of its cleanup. */
    method AbtsTimeout(m: Manager, e: Env)
      modifies this, m`freeCnt, m`active, m`scp, m`log
      ensures V() == Requests.AbtsTimeout(old(V()), e)
      ensures m.B() == Account(old(m.B()), xid, old(V()), Outcome(V(), None), false)
    {
      CancelTimer();
      var waits := InitiateCleanup(true, e);
      if waits {
        marks := marks + {AbtsTmoWait};
      } else {
        LeaveAbort();
        KrefPut(m);
      }
    }

    /** The ABTS case of qedf_cmd_timeout, after the wait. */
    method ResumeAbtsTimeout(m: Manager, e: Env)
      modifies this, m`freeCnt, m`active, m`scp, m`log
      ensures var o := AbtsTimeoutEnd(old(V()), old(HasToken(m)), e);
              V() == o.req && m.B() == Account(old(m.B()), xid, old(V()), o, false)
    {
      FinishCleanup(m, e);
      AbtsTaken(e);
      AbtsTimeoutEnds(m);
      TimeoutAccount(old(m.B()), xid, old(V()), old(HasToken(m)), e);
    }

    method AbtsTimeoutEnds(m: Manager)
      modifies this, m`freeCnt, m`active
      ensures V() == AbtsTmoLeaves(old(V()))
      ensures m.B() == Account(old(m.B()), xid, old(V()), Outcome(V(), None), false)
    {
      marks := marks - {AbtsTmoWait};
      LeaveAbort();
      KrefPut(m);
    }

    /** Cancels a pending RRQ; whoever cancels the work drops its reference. */
    method CancelRrq(m: Manager)
      modifies this, m`freeCnt, m`active, m`scp, m`log
      ensures V() == Requests.CancelRrq(old(V()))
      ensures m.B() == Account(old(m.B()), xid, old(V()), Outcome(V(), None), false)
    {
      if RrqWork in pending {
        pending := pending - {RrqWork};
        KrefPut(m);
      } else {
        assert pending - {RrqWork} == pending;
      }
    }

    /** The flush finds a request that is not outstanding. */
    method FlushNotOutstanding(m: Manager)
      modifies this, m`freeCnt, m`active, m`scp, m`log
      ensures V() == Requests.FlushNotOutstanding(old(V()))
      ensures m.B() == Account(old(m.B()), xid, old(V()), Outcome(V(), None), false)
    {
      if state.RrqWait? { CancelRrq(m); }
    }

    /** The flush has cancelled the timer of an ABTS. */
    method FlushAborting(m: Manager, e: Env) returns (waits: bool)
      modifies this, m`freeCnt, m`active, m`scp, m`log
      ensures V() == Requests.FlushAborting(old(V()), e)
      ensures m.B() == Account(old(m.B()), xid, old(V()), Outcome(V(), None), false)
      ensures if waits then !flushWait.NoFlush? else flushWait == old(flushWait)
    {
      waits := InitiateCleanup(true, e);
      if waits {
        flushWait := FlushAbts;
      } else {
        LeaveAbort();
        PutTwice(m);
      }
    }

    /** The flush finds an ABTS. */
    method FlushAbtsVisit(m: Manager, e: Env) returns (waits: bool)
      modifies this, m`freeCnt, m`active, m`scp, m`log
      ensures V() == Requests.FlushAbtsVisit(old(V()), e)
      ensures m.B() == Account(old(m.B()), xid, old(V()), Outcome(V(), None), false)
      ensures if waits then !flushWait.NoFlush? else flushWait == old(flushWait)
    {
      if refs == 0 || (!e.wholeTarget && !e.lunMatches) { return false; }
      refs := refs + 1;
      CancelRrq(m);
      waits := FlushAbtsHeld(m, e);
    }

    method FlushAbtsHeld(m: Manager, e: Env) returns (waits: bool)
      modifies this, m`freeCnt, m`active, m`scp, m`log
      ensures V() == Requests.FlushAbtsHeld(old(V()), e)
      ensures m.B() == Account(old(m.B()), xid, old(V()), Outcome(V(), None), false)
      ensures if waits then !flushWait.NoFlush? else flushWait == old(flushWait)
    {
      if TimeoutWork in pending {
        CancelTimer();
        waits := FlushAborting(m, e);
      } else {
        KrefPut(m);
        waits := false;
      }
    }

    /** The flush cleans a request up and drops its reference, unless it has to wait. */
    method FlushCleanup(m: Manager, returnCmd: bool, ghost w: FlushWait, e: Env) returns (waits: bool)
      requires !w.NoFlush?
      modifies this, m`freeCnt, m`active, m`scp, m`log
      ensures V() == Requests.FlushCleanup(old(V()), returnCmd, w, e).req
      ensures m.B() == Account(old(m.B()), xid, old(V()), Outcome(V(), None), false)
      ensures if waits then !flushWait.NoFlush? else flushWait == old(flushWait)
    {
      waits := InitiateCleanup(returnCmd, e);
      if waits { flushWait := w; } else { KrefPut(m); }
    }

    /** The flush finds any other request. */
    method FlushScsiVisit(m: Manager, e: Env) returns (waits: bool)
      modifies this, m`freeCnt, m`active, m`scp, m`log
      ensures var o := Requests.FlushScsiVisit(old(V()), old(HasToken(m)), e);
              V() == o.req && m.B() == Account(old(m.B()), xid, old(V()), o, false)
      ensures if waits then !flushWait.NoFlush? else flushWait == old(flushWait)
    {
      if scCmd.None? { return false; }
      if e.nullDevice {
        scCmd := None;
        waits := FlushCleanup(m, false, FlushNullDevice, e);
        return;
      }
      if (!e.wholeTarget && !e.lunMatches) || refs == 0 { return false; }
      waits := FlushCommand(m, e);
    }

    method FlushCommand(m: Manager, e: Env) returns (waits: bool)
      modifies this, m`freeCnt, m`active, m`scp, m`log
      ensures var o := Requests.FlushCommand(old(V()), old(HasToken(m)), e);
              V() == o.req && m.B() == Account(old(m.B()), xid, old(V()), o, false)
      ensures if waits then !flushWait.NoFlush? else flushWait == old(flushWait)
    {
      refs := refs + 1;
      waits := FlushHeld(m, e);
    }

    method FlushHeld(m: Manager, e: Env) returns (waits: bool)
      modifies this, m`freeCnt, m`active, m`scp, m`log
      ensures var o := Requests.FlushHeld(old(V()), old(HasToken(m)), e);
              V() == o.req && m.B() == Account(old(m.B()), xid, old(V()), o, false)
      ensures if waits then !flushWait.NoFlush? else flushWait == old(flushWait)
    {
      if e.recovery {
        DoneAndPut(m, true, e);
        waits := false;
      } else {
        waits := FlushCleanup(m, true, FlushScsi, e);
      }
    }

    ghost method FlushTaken(e: Env)
      modifies this`marks
      ensures V() == FlushCleaned(old(V()), e)
    {
      if flushWait.FlushAbts? { AbtsTaken(e); }
    }

    /** The flush goes on after the cleanup of a request; `aborting` if it was an ABTS. */
    method ResumeFlush(m: Manager, aborting: bool, e: Env)
      requires aborting == flushWait.FlushAbts?
      modifies this, m`freeCnt, m`active, m`scp, m`log
      ensures var o := FlushScsiEnd(old(V()), old(HasToken(m)), e);
              V() == o.req && m.B() == Account(old(m.B()), xid, old(V()), o, false)
    {
      FinishCleanup(m, e);
      FlushTaken(e);
      FlushLeaves(m, aborting);
      FlushAccount(old(m.B()), xid, old(V()), old(HasToken(m)), e);
    }

    method FlushLeaves(m: Manager, aborting: bool)
      requires aborting == flushWait.FlushAbts?
      modifies this, m`freeCnt, m`active
      ensures V() == Requests.FlushLeaves(old(V()))
      ensures m.B() == Account(old(m.B()), xid, old(V()), Outcome(V(), None), false)
    {
      flushWait := NoFlush;
      if aborting {
        LeaveAbort();
        PutTwice(m);
      } else {
        KrefPut(m);
      }
    }

    method PutTwice(m: Manager)
      modifies this`refs, this`alloc, this`fcport, this`state, this`life, this`marks, m`freeCnt, m`active
      ensures V() == Put(Put(old(V())))
      ensures m.B() == Account(old(m.B()), xid, old(V()), Outcome(V(), None), false)
    {
      KrefPut(m);
      KrefPut(m);
    }

    /** qedf_eh_abort with its reference held, up to the wait for the ABTS. */
    method EhAbort(m: Manager, e: Env)
      modifies this, m`freeCnt, m`active, m`scp, m`log
      ensures var o := Requests.EhAbort(old(V()), old(HasToken(m)), e);
              V() == o.req && m.B() == Account(old(m.B()), xid, old(V()), o, false)
    {
      var started := InitiateAbts(true, e);
      if !started {
        assert V() == old(V());
        EhGiveUp(m, e);
      }
    }

    method EhGiveUp(m: Manager, e: Env)
      modifies this, m`freeCnt, m`active, m`scp, m`log
      ensures var o := Requests.EhGiveUp(old(V()), old(HasToken(m)), e);
              V() == o.req && m.B() == Account(old(m.B()), xid, old(V()), o, false)
    {
      ScsiDone(m, e);
      ghost var r1 := V();
      EhEnd(m);
      AccountThen(old(m.B()), xid, old(V()), Requests.ScsiDone(old(V()), old(HasToken(m)), e), r1, V());
    }

    // ---- ELS requests

    /** qedf_initiate_els once it has a request. */
    method StartEls(m: Manager, arg: CbArg, mpOk: bool)
      modifies this, m`freeCnt, m`active
      ensures V() == if mpOk then ElsPosted(old(V()).(cb := Some(arg))) else Put(old(V()).(cb := Some(arg)))
      ensures m.B() == Account(old(m.B()), xid, old(V()), Outcome(V(), None), false)
    {
      cb := Some(arg);
      if mpOk {
        pending := pending + {TimeoutWork};
        flags := flags + {Outstanding};
      } else {
        KrefPut(m);
      }
    }

    /** rrq_work starts to run; `done` if it cannot send the RRQ. */
    method BeginRrq(m: Manager, e: Env) returns (done: bool)
      modifies this, m`freeCnt, m`active
      ensures var r := RrqBegin(old(V()));
              && done == (old(fcport.None?) || !e.ready || r.refs != 1 || !e.memory)
              && V() == (if !done then r
                         else if old(fcport.Some?) && (!e.ready || r.refs != 1) then Abandon(r)
                         else Put(r))
      ensures m.B() == Account(old(m.B()), xid, old(V()), Outcome(V(), None), false)
    {
      pending := pending - {RrqWork};
      state := RrqActive;
      if fcport.None? {
        KrefPut(m);
        done := true;
      } else if !e.ready || refs != 1 {
        abandoned := abandoned + 1;
        done := true;
      } else if !e.memory {
        KrefPut(m);
        done := true;
      } else {
        done := false;
      }
    }

    /** qedf_srr_compl, for the request the SRR was sent for. */
    method SrrCompl(ev: Event, e: Env)
      modifies this
      ensures V() == SrrReturns(old(V()), ev, e)
    {
      flags := flags - {SrrSent};
      if !ev.EvElsTmo? {
        CancelTimer();
        if e.reply.SrrRejected? { var _ := InitiateAbts(true, e); }
      }
    }

    /** The tail of an ELS handler: an RRQ that timed out is dropped by its callback too. */
    method ElsDrop(m: Manager)
      modifies this, m`freeCnt, m`active
      ensures V() == Exchange.ElsDrop(old(V()))
      ensures m.B() == Account(old(m.B()), xid, old(V()), Outcome(V(), None), false)
    {
      if cb.Some? && cb.value.op.Rrq? && event.EvElsTmo? { KrefPut(m); }
      cb := None;
      KrefPut(m);
    }

    method ElsTmoDrop(m: Manager)
      modifies this, m`freeCnt, m`active
      ensures V() == Exchange.ElsTmoDrop(old(V()))
      ensures m.B() == Account(old(m.B()), xid, old(V()), Outcome(V(), None), false)
    {
      abandoned := abandoned + if ElsTmoWait in marks && !IsRrq(V()) then 1 else 0;
      marks := marks - {ElsTmoWait};
      ElsDrop(m);
    }

    method ElsFlushDrop(m: Manager)
      modifies this, m`freeCnt, m`active
      ensures V() == Exchange.ElsFlushDrop(old(V()))
      ensures m.B() == Account(old(m.B()), xid, old(V()), Outcome(V(), None), false)
    {
      flushWait := NoFlush;
      cb := None;
      PutTwice(m);
    }

    /** The end of qedf_eh_abort. */
    method EhEnd(m: Manager)
      modifies this, m`freeCnt, m`active, m`scp, m`log
      ensures V() == Requests.EhEnd(old(V()))
      ensures m.B() == Account(old(m.B()), xid, old(V()), Outcome(V(), None), false)
    {
      eh := if eh > 0 then eh - 1 else 0;
      KrefPut(m);
    }
  }

  /** `struct qedf_cmd_mgr`, with the counters of the ports and SCp.ptr of the commands. */
  class Manager {
    const cmds: array<Request>
    var idx: nat
    var freeCnt: int
    var active: seq<int>
    var scp: map<nat, nat>
    ghost var running: Option<nat>
    ghost var log: seq<LogEntry>

    ghost function B(): Books
      reads this
    {
      Books(freeCnt, active, scp, log)
    }

    ghost predicate Valid()
      reads this, cmds
    {
      cmds.Length == NUM_TASKS && idx < NUM_TASKS && forall i :: 0 <= i < cmds.Length ==> cmds[i].xid == i
    }

    ghost function View(): (s: State)
      requires Valid()
      reads this, cmds, cmds[..]
      ensures WellFormed(s)
    {
      State(seq(cmds.Length, i requires 0 <= i < cmds.Length reads cmds, cmds[..] => cmds[i].V()),
            idx, freeCnt, active, scp, running, log)
    }

    /** qedf_cmd_mgr_alloc. */
    constructor (ports: nat)
      ensures Valid() && View() == Initial(ports)
    {
      var free := new Request(0);
      cmds := new Request[NUM_TASKS](_ => free);
      idx, freeCnt, active, scp, running, log := 0, NUM_TASKS, seq(ports, _ => 0), map[], None, [];
      new;
      var i := 0;
      while i < NUM_TASKS
        invariant 0 <= i <= NUM_TASKS && cmds.Length == NUM_TASKS && fresh(cmds)
        invariant idx == 0 && freeCnt == NUM_TASKS && active == seq(ports, _ => 0)
        invariant scp == map[] && running == None && log == []
        invariant forall k :: 0 <= k < i ==> cmds[k].xid == k && fresh(cmds[k]) && cmds[k].V() == FREE_REQ
        modifies cmds
      {
        cmds[i] := new Request(i);
        i := i + 1;
      }
    }

    /** The scan of qedf_alloc_cmd: once around, starting at the cursor. */
    method Scan(ghost reqs: seq<IoReq>) returns (n: Option<nat>)
      requires Valid() && |reqs| == NUM_TASKS && forall i :: 0 <= i < NUM_TASKS ==> reqs[i].alloc == cmds[i].alloc
      modifies this`idx
      ensures Valid()
      ensures var d := ScanFrom(reqs, old(idx), 0); n == if d == NUM_TASKS then None else Some(At(old(idx), d))
      ensures idx == if n.None? then old(idx) else if n.value + 1 == NUM_TASKS then 0 else n.value + 1
    {
      n := None;
      ghost var start := idx;
      var i := 0;
      while i < NUM_TASKS
        invariant 0 <= i <= NUM_TASKS && n.None?
        invariant ScanFrom(reqs, start, 0) == ScanFrom(reqs, start, i)
        invariant idx == if i < NUM_TASKS then At(start, i) else start
      {
        var x := idx;
        idx := idx + 1;
        if idx == NUM_TASKS { idx := 0; }
        if !cmds[x].alloc { return Some(x); }
        i := i + 1;
      }
    }

    method ScanPool(ghost reqs: seq<IoReq>) returns (n: Option<nat>)
      requires Valid() && reqs == View().reqs
      modifies this`idx
      ensures Valid()
      ensures var d := ScanFrom(reqs, old(idx), 0); n == if d == NUM_TASKS then None else Some(At(old(idx), d))
      ensures idx == if n.None? then old(idx) else if n.value + 1 == NUM_TASKS then 0 else n.value + 1
    {
      assert forall i :: 0 <= i < NUM_TASKS ==> reqs[i] == cmds[i].V();
      n := Scan(reqs);
    }

    /** qedf_alloc_cmd. */
    method AllocCmd(port: nat, t: CmdType, e: Env) returns (n: Option<nat>)
      requires Valid()
      modifies this`idx, this`freeCnt, this`active, cmds[..]
      ensures Valid() && n == FreeSlot(old(View()), port, e)
      ensures View() == if n.None? then old(View()) else TakeFresh(old(View()), n.value, port, t)
    {
      if !e.room || port >= |active| || active[port] >= RW_TASKS_PER_CONNECTION { return None; }
      if freeCnt <= RESERVED_TASKS { return None; }
      n := ScanAndTake(port, t);
    }

    method ScanAndTake(port: nat, t: CmdType) returns (n: Option<nat>)
      requires Valid() && port < |active|
      modifies this`idx, this`freeCnt, this`active, cmds[..]
      ensures Valid()
      ensures var d := ScanFrom(old(View()).reqs, old(idx), 0);
              n == if d == NUM_TASKS then None else Some(At(old(idx), d))
      ensures View() == if n.None? then old(View()) else TakeFresh(old(View()), n.value, port, t)
    {
      ghost var s0 := View();
      n := ScanPool(s0.reqs);
      assert View().reqs == s0.reqs;
      if n.Some? { TakeCmd(n.value, port, t); }
    }

    method TakeCmd(n: nat, port: nat, t: CmdType)
      requires Valid() && n < NUM_TASKS && port < |active| && idx == if n + 1 == NUM_TASKS then 0 else n + 1
      modifies this`freeCnt, this`active, cmds[n]
      ensures Valid() && View() == TakeFresh(old(View()), n, port, t)
    {
      active := active[port := active[port] + 1];
      freeCnt := freeCnt - 1;
      cmds[n].Init(port, t);
      assert View().reqs == old(View()).reqs[n := cmds[n].V()];
    }

    /** qedf_post_io_req for a taken request. */
    method PostIoReq(n: nat, c: nat, e: Env)
      requires Valid() && n < NUM_TASKS
      modifies this`freeCnt, this`active, this`scp, cmds[n]
      ensures Valid() && View() == PostTaken(old(View()), n, c, e)
    {
      scp := scp[c := n];
      cmds[n].Post(this, c, e.postOk);
      PostedOnce(old(View()), n, c, e);
      assert View().reqs == old(View()).reqs[n := cmds[n].V()];
    }

    /** qedf_queuecommand. */
    method QueueCommand(port: nat, c: nat, e: Env)
      requires Valid()
      modifies this, cmds[..]
      ensures Valid() && View() == QueueCmd(old(View()), port, c, e)
    {
      var n := AllocCmd(port, ScsiCmd, e);
      if n.None? { return; }
      if e.postOk { log := log + [Accepted(c)]; }
      PostIoReq(n.value, c, e);
    }

    // ---- ELS: qedf_els.c

    /** qedf_initiate_els. */
    method InitiateEls(port: nat, arg: CbArg, e: Env) returns (ok: bool)
      requires Valid()
      modifies this, cmds[..]
      ensures Valid() && View() == Exchange.InitiateEls(old(View()), port, arg, e)
      ensures ok == ElsStarts(old(View()), port, e)
    {
      if !e.elsReady || !e.ready { return false; }
      var n := AllocCmd(port, Els, e);
      if n.None? { return false; }
      StartEls(n.value, arg, e.mpOk);
      ElsInOnePiece(old(View()), n.value, port, arg);
      return e.mpOk;
    }

    method StartEls(n: nat, arg: CbArg, mpOk: bool)
      requires Valid() && n < NUM_TASKS
      modifies this`freeCnt, this`active, cmds[n]
      ensures Valid()
      ensures var r := old(View()).reqs[n].(cb := Some(arg));
              View() == Store(old(View()), n, if mpOk then ElsPosted(r) else Put(r))
    {
      cmds[n].StartEls(this, arg, mpOk);
      assert View().reqs == old(View()).reqs[n := cmds[n].V()];
    }

    /** qedf_requeue_io_req. */
    method Requeue(x: nat, e: Env)
      requires Valid() && x < NUM_TASKS
      modifies this, cmds[..]
      ensures Valid() && View() == Exchange.Requeue(old(View()), x, e)
    {
      var r := cmds[x];
      if r.fcport.None? || r.scCmd.None? { return; }
      var c := r.scCmd.value;
      var n := AllocCmd(r.fcport.value, ScsiCmd, e);
      if n.None? { return; }
      Unbind(x);
      PostIoReq(n.value, c, e);
      if e.postOk { Abort(x, false, e); }
    }

    /** The request gives up its command. */
    method Unbind(x: nat)
      requires Valid() && x < NUM_TASKS
      modifies this`freeCnt, this`active, cmds[x]
      ensures Valid() && View() == Store(old(View()), x, Put(Requests.Unbind(old(View()).reqs[x])))
    {
      cmds[x].scCmd := None;
      cmds[x].KrefPut(this);
      assert View().reqs == old(View()).reqs[x := cmds[x].V()];
    }

    method Abort(x: nat, returnCmd: bool, e: Env)
      requires Valid() && x < NUM_TASKS
      modifies cmds[x]
      ensures Valid() && View() == Store(old(View()), x, InitiateAbts(old(View()).reqs[x], returnCmd, e))
    {
      var _ := cmds[x].InitiateAbts(returnCmd, e);
      assert View().reqs == old(View()).reqs[x := cmds[x].V()];
    }

    method KrefGet(x: nat)
      requires Valid() && x < NUM_TASKS
      modifies cmds[x]
      ensures Valid() && View() == Store(old(View()), x, Get(old(View()).reqs[x]))
    {
      cmds[x].refs := cmds[x].refs + 1;
      assert View().reqs == old(View()).reqs[x := cmds[x].V()];
    }

    method KrefPut(x: nat)
      requires Valid() && x < NUM_TASKS
      modifies this`freeCnt, this`active, cmds[x]
      ensures Valid() && View() == Store(old(View()), x, Put(old(View()).reqs[x]))
    {
      cmds[x].KrefPut(this);
      assert View().reqs == old(View()).reqs[x := cmds[x].V()];
    }

    /** qedf_send_srr. */
    method SendSrr(x: nat, e: Env)
      requires Valid() && x < NUM_TASKS
      modifies this, cmds[..]
      ensures Valid() && View() == Exchange.SendSrr(old(View()), x, e)
    {
      var port := cmds[x].fcport;
      if port.None? || !e.ready { return; }
      KrefGet(x);
      var ok := false;
      if e.memory { ok := InitiateEls(port.value, CbArg(Srr, Some(x)), e); }
      if ok { MarkSrr(x); } else { AbortAndPut(x, e); }
    }

    method MarkSrr(x: nat)
      requires Valid() && x < NUM_TASKS
      modifies cmds[x]
      ensures Valid() && View() == Store(old(View()), x, SrrBegin(old(View()).reqs[x]))
    {
      cmds[x].flags := cmds[x].flags + {SrrSent};
      assert View().reqs == old(View()).reqs[x := cmds[x].V()];
    }

    method AbortAndPut(x: nat, e: Env)
      requires Valid() && x < NUM_TASKS
      modifies this`freeCnt, this`active, cmds[x]
      ensures Valid() && View() == Store(old(View()), x, Put(InitiateAbts(old(View()).reqs[x], true, e)))
    {
      var _ := cmds[x].InitiateAbts(true, e);
      cmds[x].KrefPut(this);
      assert View().reqs == old(View()).reqs[x := cmds[x].V()];
    }

    /** qedf_send_rec and the abort that its caller falls back to. */
    method SendRec(x: nat, e: Env)
      requires Valid() && x < NUM_TASKS
      modifies this, cmds[..]
      ensures Valid() && View() == Exchange.SendRec(old(View()), x, e)
    {
      var port := cmds[x].fcport;
      if port.None? || !e.ready {
        Abort(x, true, e);
        return;
      }
      KrefGet(x);
      var ok := false;
      if e.memory { ok := InitiateEls(port.value, CbArg(Rec, Some(x)), e); }
      if !ok { PutAndAbort(x, e); }
    }

    method PutAndAbort(x: nat, e: Env)
      requires Valid() && x < NUM_TASKS
      modifies this`freeCnt, this`active, cmds[x]
      ensures Valid() && View() == Store(old(View()), x, InitiateAbts(Put(old(View()).reqs[x]), true, e))
    {
      cmds[x].KrefPut(this);
      var _ := cmds[x].InitiateAbts(true, e);
      assert View().reqs == old(View()).reqs[x := cmds[x].V()];
    }

    /** rrq_work: qedf_send_rrq. */
    method SendRrq(x: nat, e: Env)
      requires Valid() && x < NUM_TASKS
      modifies this, cmds[..]
      ensures Valid() && View() == Exchange.SendRrq(old(View()), x, e)
    {
      var r := cmds[x];
      var done := BeginRrq(x, e);
      if done { return; }
      var ok := InitiateEls(r.fcport.value, CbArg(Rrq, Some(x)), e);
      if !ok { KrefPut(x); }
    }

    /** The checks of qedf_send_rrq; `done` if one of them failed. */
    method BeginRrq(x: nat, e: Env) returns (done: bool)
      requires Valid() && x < NUM_TASKS
      modifies this`freeCnt, this`active, cmds[x]
      ensures Valid()
      ensures done ==> View() == Exchange.SendRrq(old(View()), x, e)
      ensures !done ==> View() == Store(old(View()), x, RrqBegin(old(View()).reqs[x]))
      ensures !done ==> e.ready && e.memory && cmds[x].refs == 1 && cmds[x].fcport.Some?
      ensures !done ==> cmds[x].fcport == old(cmds[x].fcport)
    {
      done := cmds[x].BeginRrq(this, e);
      assert View().reqs == old(View()).reqs[x := cmds[x].V()];
    }

    // ---- Callbacks of ELS requests, for the request `x` they were sent for

    method CancelTimer(x: nat)
      requires Valid() && x < NUM_TASKS
      modifies cmds[x]
      ensures Valid() && View() == Store(old(View()), x, StopTimer(old(View()).reqs[x]))
    {
      cmds[x].CancelTimer();
      assert View().reqs == old(View()).reqs[x := cmds[x].V()];
    }

    /** qedf_rec_compl, up to its last reference. */
    method RecCompl(x: nat, ev: Event, e: Env)
      requires Valid() && x < NUM_TASKS
      modifies this, cmds[..]
      ensures Valid() && View() == CallbackActs(old(View()), Rec, x, ev, e)
    {
      if ev.EvElsTmo? { return; }
      CancelTimer(x);
      if e.reply.CommandLost? {
        Requeue(x, e);
      } else if e.reply.ResponseLost? && cmds[x].scCmd.Some? {
        SendSrr(x, e);
      }
    }

    /** qedf_srr_compl, up to its last reference. */
    method SrrCompl(x: nat, ev: Event, e: Env)
      requires Valid() && x < NUM_TASKS
      modifies cmds[x]
      ensures Valid() && View() == CallbackActs(old(View()), Srr, x, ev, e)
    {
      cmds[x].SrrCompl(ev, e);
      assert View().reqs == old(View()).reqs[x := cmds[x].V()];
    }

    /** `cb_func(cb_arg)`. */
    method RunCallback(arg: Option<CbArg>, ev: Event, e: Env)
      requires Valid()
      modifies this, cmds[..]
      ensures Valid() && View() == Callback(old(View()), arg, ev, e)
    {
      if arg.None? || arg.value.op.Adisc? || arg.value.aborted.None? || arg.value.aborted.value >= NUM_TASKS { return; }
      var x := arg.value.aborted.value;
      match arg.value.op {
        case Adisc =>
        case Rrq => if cmds[x].refs <= 0 { return; }
        case Rec => RecCompl(x, ev, e);
        case Srr => SrrCompl(x, ev, e);
      }
      KrefPut(x);
    }

    // ---- Handlers of ELS requests

    method CallBack(y: nat, e: Env)
      requires Valid() && y < NUM_TASKS
      modifies this, cmds[..]
      ensures Valid() && View() == Callback(old(View()), old(View()).reqs[y].cb, old(View()).reqs[y].event, e)
    {
      RunCallback(cmds[y].cb, cmds[y].event, e);
    }

    method QuiesceEls(y: nat)
      requires Valid() && y < NUM_TASKS
      modifies cmds[y]
      ensures Valid() && View() == Store(old(View()), y, Quiesce(old(View()).reqs[y]))
    {
      cmds[y].flags := cmds[y].flags - {Outstanding};
      cmds[y].CancelTimer();
      assert View().reqs == old(View()).reqs[y := cmds[y].V()];
    }

    method SetEvent(y: nat, ev: Event)
      requires Valid() && y < NUM_TASKS
      modifies cmds[y]
      ensures Valid() && View() == Store(old(View()), y, WithEvent(old(View()).reqs[y], ev))
    {
      cmds[y].event := ev;
      assert View().reqs == old(View()).reqs[y := cmds[y].V()];
    }

    /** qedf_process_els_compl. */
    method ElsCompl(y: nat, e: Env)
      requires Valid() && y < NUM_TASKS
      modifies this, cmds[..]
      ensures Valid() && View() == Exchange.ElsCompl(old(View()), y, e)
    {
      var ev := cmds[y].event;
      if ev.EvElsFlush? || ev.EvCleanupSuccess? || ev.EvCleanupFailed? || e.flushing { return; }
      QuiesceEls(y);
      CallBack(y, e);
      EndEls(y);
    }

    method EndEls(y: nat)
      requires Valid() && y < NUM_TASKS
      modifies this`freeCnt, this`active, this`running, cmds[y]
      ensures Valid() && View() == Settle(old(View()), y, ElsDrop(old(View()).reqs[y]))
    {
      cmds[y].ElsDrop(this);
      running := None;
      assert View().reqs == old(View()).reqs[y := cmds[y].V()];
    }

    /** The ELS case of qedf_cmd_timeout after its cleanup. */
    method ElsTimedOut(y: nat, e: Env)
      requires Valid() && y < NUM_TASKS
      modifies this, cmds[..]
      ensures Valid() && View() == Exchange.ElsTimedOut(old(View()), y, old(View()).reqs[y], e)
    {
      SetEvent(y, EvElsTmo);
      CallBack(y, e);
      EndTimeout(y);
    }

    method EndTimeout(y: nat)
      requires Valid() && y < NUM_TASKS
      modifies this`freeCnt, this`active, this`running, cmds[y]
      ensures Valid() && View() == Settle(old(View()), y, ElsTmoDrop(old(View()).reqs[y]))
    {
      cmds[y].ElsTmoDrop(this);
      running := None;
      assert View().reqs == old(View()).reqs[y := cmds[y].V()];
    }

    /** The ELS case of qedf_cmd_timeout, up to the wait of its cleanup. */
    method ElsTimeout(y: nat, e: Env)
      requires Valid() && y < NUM_TASKS
      modifies this, cmds[..]
      ensures Valid() && View() == Exchange.ElsTimeout(old(View()), y, e)
    {
      var waits := BeginElsTimeout(y, e);
      if !waits {
        ghost var r := View().reqs[y];
        running := Some(y);
        assert View().reqs == old(View()).reqs[y := r];
        ElsTimedOut(y, e);
        StoreTwice(old(View()).(running := Some(y)), y, r, WithEvent(r, EvElsTmo));
      }
    }

    method BeginElsTimeout(y: nat, e: Env) returns (waits: bool)
      requires Valid() && y < NUM_TASKS
      modifies cmds[y]
      ensures Valid()
      ensures var q := Quiesce(Get(old(View()).reqs[y]));
              && waits == CleanupWaits(q, e)
              && View() == Store(old(View()), y, if waits then ElsTmoSuspends(CleanupBegin(q, true, e))
                                                 else CleanupBegin(q, true, e))
    {
      var r := cmds[y];
      r.flags := r.flags - {Outstanding};
      r.CancelTimer();
      r.refs := r.refs + 1;
      waits := r.InitiateCleanup(true, e);
      if waits { r.marks := r.marks + {ElsTmoWait}; }
      assert View().reqs == old(View()).reqs[y := r.V()];
    }

    /** The ELS timeout goes on after its cleanup. */
    method ResumeElsTimeout(y: nat, e: Env)
      requires Valid() && y < NUM_TASKS
      modifies this, cmds[..]
      ensures Valid() && View() == ElsTmoResumed(old(View()), y, e)
    {
      FinishElsCleanup(y, e);
      ElsTimedOut(y, e);
    }

    /** The cleanup that a handler of an ELS request waited for ends. */
    method FinishElsCleanup(y: nat, e: Env)
      requires Valid() && y < NUM_TASKS
      modifies this`freeCnt, this`active, this`scp, this`log, cmds[y]
      ensures Valid() && View() == ElsCleaned(old(View()), y, e)
    {
      cmds[y].FinishCleanup(this, e);
      assert View().reqs == old(View()).reqs[y := cmds[y].V()];
    }

    /** qedf_flush_els_req and the end of the walker's visit. */
    method ElsFlushed(y: nat, e: Env)
      requires Valid() && y < NUM_TASKS
      modifies this, cmds[..]
      ensures Valid() && View() == Exchange.ElsFlushed(old(View()), y, old(View()).reqs[y], e)
    {
      BeginElsFlush(y);
      CallBack(y, e);
      EndFlush(y);
    }

    method BeginElsFlush(y: nat)
      requires Valid() && y < NUM_TASKS
      modifies cmds[y]
      ensures Valid() && View() == Store(old(View()), y, WithEvent(Quiesce(old(View()).reqs[y]), EvElsFlush))
    {
      cmds[y].event := EvElsFlush;
      cmds[y].flags := cmds[y].flags - {Outstanding};
      cmds[y].CancelTimer();
      assert View().reqs == old(View()).reqs[y := cmds[y].V()];
    }

    method EndFlush(y: nat)
      requires Valid() && y < NUM_TASKS
      modifies this`freeCnt, this`active, this`running, cmds[y]
      ensures Valid() && View() == Settle(old(View()), y, ElsFlushDrop(old(View()).reqs[y]))
    {
      cmds[y].ElsFlushDrop(this);
      running := None;
      assert View().reqs == old(View()).reqs[y := cmds[y].V()];
    }

    // ---- Flushing

    /** A walker that comes to request `x` reports truthfully whether it sleeps there. */
    static ghost predicate Slept(s: State, s': State, x: nat, waits: bool)
      requires x < |s.reqs| == |s'.reqs|
    {
      && (waits ==> !s'.reqs[x].flushWait.NoFlush?)
      && (s.reqs[x].flushWait.NoFlush? && !s'.reqs[x].flushWait.NoFlush? ==> waits)
    }

    /** The visit of an ELS request. */
    method FlushEls(y: nat, e: Env) returns (waits: bool)
      requires Valid() && y < NUM_TASKS
      modifies this, cmds[..]
      ensures Valid() && View() == FlushElsVisit(old(View()), y, e) && Slept(old(View()), View(), y, waits)
    {
      if cmds[y].refs == 0 { return false; }
      waits := BeginFlushEls(y, e);
      if !waits {
        ghost var r := View().reqs[y];
        running := Some(y);
        assert View().reqs == old(View()).reqs[y := r];
        ElsFlushed(y, e);
        StoreTwice(old(View()).(running := Some(y)), y, r, WithEvent(Quiesce(r), EvElsFlush));
      }
    }

    method BeginFlushEls(y: nat, e: Env) returns (waits: bool)
      requires Valid() && y < NUM_TASKS
      modifies cmds[y]
      ensures Valid()
      ensures var g := Get(old(View()).reqs[y]);
              && waits == CleanupWaits(g, e)
              && View() == Store(old(View()), y, if waits then FlushElsSuspends(CleanupBegin(g, false, e))
                                                 else CleanupBegin(g, false, e))
    {
      var r := cmds[y];
      r.refs := r.refs + 1;
      waits := r.InitiateCleanup(false, e);
      if waits { r.flushWait := FlushWait.FlushEls; }
      assert View().reqs == old(View()).reqs[y := r.V()];
    }

    /** The visit of any other outstanding request. */
    method FlushOutstanding(x: nat, e: Env) returns (waits: bool)
      requires Valid() && x < NUM_TASKS
      modifies this, cmds[x]
      ensures Valid() && Slept(old(View()), View(), x, waits)
      ensures var s, r := old(View()), old(View()).reqs[x];
              View() == if r.cmdType.Abts? then Store(s, x, FlushAbtsVisit(r, e))
                        else Finish(s, x, FlushScsiVisit(r, Token(s, x), e), false)
    {
      if cmds[x].cmdType.Abts? {
        waits := cmds[x].FlushAbtsVisit(this, e);
      } else {
        waits := cmds[x].FlushScsiVisit(this, e);
      }
      assert View().reqs == old(View()).reqs[x := cmds[x].V()];
    }

    /** One turn of the loop of qedf_flush_active_ios; `waits` if it has to sleep on this request. */
    method FlushVisit(x: nat, port: nat, e: Env) returns (waits: bool)
      requires Valid() && x < NUM_TASKS
      modifies this, cmds[..]
      ensures Valid() && View() == Flush(old(View()), x, port, e) && Slept(old(View()), View(), x, waits)
    {
      var r := cmds[x];
      if !r.alloc || r.fcport != Some(port) { return false; }
      if Outstanding !in r.flags {
        r.FlushNotOutstanding(this);
        assert View().reqs == old(View()).reqs[x := r.V()];
        return false;
      }
      if r.cmdType.Els? && e.wholeTarget {
        waits := FlushEls(x, e);
      } else {
        waits := FlushOutstanding(x, e);
      }
    }

    /** The walk, from request `from` until it is done or has to sleep on request `at - 1`. */
    method FlushActiveIos(port: nat, from: nat, es: seq<Env>) returns (at: nat, waits: bool)
      requires Valid() && from <= NUM_TASKS && |es| == NUM_TASKS
      modifies this, cmds[..]
      ensures Valid() && from <= at <= NUM_TASKS && View() == FlushRange(old(View()), port, from, at, es)
      ensures if waits then from < at && !View().reqs[at - 1].flushWait.NoFlush? else at == NUM_TASKS
      ensures forall k :: from < k <= at && (waits ==> k < at) ==> Passes(old(View()), port, from, k, es)
    {
      at, waits := from, false;
      while at < NUM_TASKS && !waits
        invariant Valid() && from <= at <= NUM_TASKS && View() == FlushRange(old(View()), port, from, at, es)
        invariant waits ==> from < at && !View().reqs[at - 1].flushWait.NoFlush?
        invariant forall k :: from < k <= at && (waits ==> k < at) ==> Passes(old(View()), port, from, k, es)
      {
        waits := FlushVisit(at, port, es[at]);
        at := at + 1;
      }
    }

    /** The walk goes on after the cleanup of request `x`. */
    method ResumeFlush(x: nat, aborting: bool, e: Env)
      requires Valid() && x < NUM_TASKS && aborting == cmds[x].flushWait.FlushAbts?
      modifies this, cmds[x]
      ensures Valid()
      ensures var s := old(View()); View() == Finish(s, x, FlushScsiEnd(s.reqs[x], Token(s, x), e), false)
    {
      cmds[x].ResumeFlush(this, aborting, e);
      assert View().reqs == old(View()).reqs[x := cmds[x].V()];
    }

    /** The walk goes on after the cleanup of the ELS request `y`. */
    method ResumeFlushEls(y: nat, e: Env)
      requires Valid() && y < NUM_TASKS
      modifies this, cmds[..]
      ensures Valid() && View() == FlushElsResumed(old(View()), y, e)
    {
      FinishElsCleanup(y, e);
      ElsFlushed(y, e);
    }

    // ---- Completions: qedf_process_cqe

    /** A good completion, dispatched on the type of the request. */
    method GoodCqe(x: nat, e: Env)
      requires Valid() && x < NUM_TASKS
      modifies this, cmds[..]
      ensures Valid() && View() == Good(old(View()), x, e)
    {
      if cmds[x].fcport.None? || !e.ready { return; }
      match cmds[x].cmdType {
        case ScsiCmd =>
          cmds[x].ScsiCompletion(this, e);
          assert View().reqs == old(View()).reqs[x := cmds[x].V()];
        case Els => ElsCompl(x, e);
        case _ =>
      }
    }

    /** Error detection and warnings: an abort, or a REC when the exchange is quiet for too long. */
    method ErrorCqe(x: nat, e: Env)
      requires Valid() && x < NUM_TASKS
      modifies this, cmds[..]
      ensures Valid() && View() == Apply(old(View()), Step.ErrorCqe(x, e))
    {
      if cmds[x].fcport.None? || !e.ready || e.flushing { return; }
      Abort(x, true, e);
    }

    method WarningCqe(x: nat, recTov: bool, e: Env)
      requires Valid() && x < NUM_TASKS
      modifies this, cmds[..]
      ensures Valid() && View() == Warned(old(View()), x, recTov, e)
    {
      if cmds[x].fcport.None? || !e.ready || (recTov && SrrSent in cmds[x].flags) { return; }
      if recTov { SendRec(x, e); } else { Abort(x, true, e); }
    }

    method CleanupCqe(x: nat, e: Env)
      requires Valid() && x < NUM_TASKS
      modifies this, cmds[x]
      ensures Valid() && View() == Apply(old(View()), Step.CleanupCqe(x, e))
    {
      if cmds[x].fcport.None? || !e.ready { return; }
      cmds[x].flags := cmds[x].flags - {InCleanup};
      assert View().reqs == old(View()).reqs[x := cmds[x].V()];
    }

    method AbtsCqe(x: nat, reply: AbtsReply, e: Env)
      requires Valid() && x < NUM_TASKS
      modifies this, cmds[x]
      ensures Valid() && View() == AbtsAnswered(old(View()), x, reply, e)
    {
      if cmds[x].fcport.None? || !e.ready { return; }
      cmds[x].AbtsCompl(this, reply, e);
      assert View().reqs == old(View()).reqs[x := cmds[x].V()];
    }

    // ---- Timers and the error handler

    /** qedf_cmd_timeout. */
    method CmdTimeout(x: nat, e: Env)
      requires Valid() && x < NUM_TASKS
      modifies this, cmds[..]
      ensures Valid() && View() == Timer(old(View()), x, e)
    {
      if cmds[x].fcport.Some? && cmds[x].cmdType.Abts? {
        cmds[x].AbtsTimeout(this, e);
        assert View().reqs == old(View()).reqs[x := cmds[x].V()];
      } else if cmds[x].fcport.Some? && cmds[x].cmdType.Els? {
        ElsTimeout(x, e);
      } else {
        CancelTimer(x);
      }
    }

    method ResumeAbtsTimeout(x: nat, e: Env)
      requires Valid() && x < NUM_TASKS
      modifies this, cmds[x]
      ensures Valid()
      ensures var s := old(View()); View() == Finish(s, x, AbtsTimeoutEnd(s.reqs[x], Token(s, x), e), false)
    {
      cmds[x].ResumeAbtsTimeout(this, e);
      assert View().reqs == old(View()).reqs[x := cmds[x].V()];
    }

    /** qedf_eh_abort finds the request of command `c` and holds it. */
    method EhStarts(c: nat)
      requires Valid()
      modifies cmds[..]
      ensures Valid() && View() == EhBegins(old(View()), c)
    {
      if c !in scp || scp[c] >= NUM_TASKS { return; }
      var r := cmds[scp[c]];
      if r.refs == 0 || r.scCmd != Some(c) { return; }
      r.refs := r.refs + 1;
      r.eh := r.eh + 1;
      assert View().reqs == old(View()).reqs[scp[c] := r.V()];
    }

    method EhAborts(x: nat, e: Env)
      requires Valid() && x < NUM_TASKS
      modifies this, cmds[x]
      ensures Valid() && View() == Finish(old(View()), x, EhAbort(old(View()).reqs[x], Token(old(View()), x), e), false)
    {
      cmds[x].EhAbort(this, e);
      assert View().reqs == old(View()).reqs[x := cmds[x].V()];
    }

    method EhLeaves(x: nat)
      requires Valid() && x < NUM_TASKS
      modifies this, cmds[x]
      ensures Valid() && View() == Store(old(View()), x, EhEnd(old(View()).reqs[x]))
    {
      cmds[x].EhEnd(this);
      assert View().reqs == old(View()).reqs[x := cmds[x].V()];
    }
  }
}
