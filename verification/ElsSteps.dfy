/** Sending an ELS, requeueing a command and the recovery ELSs keep the invariant. */
module ElsSteps {
  import opened Requests
  import opened Exchange
  import opened Holders
  import opened Counting
  import opened ExchangeInvariant
  import opened ExchangeSteps

  // ---- Sending an ELS

  lemma {:induction false} ElsFreshOk(r: IoReq, port: nat, cb: CbArg)
    requires ReqOk(r, 0) && !r.alloc && OwnRefs(r) == 0
    ensures var f := ElsPosted(ElsFresh(r, port, cb));
            && ReqOk(f, 0) && f.alloc && f.fcport == Some(port) && f.scCmd.None?
            && Target(f) == if cb.op.Adisc? then None else cb.aborted
    ensures var g := ElsFresh(r, port, cb);
            ReqOk(Put(g), 0) && !Put(g).alloc && g.alloc && g.fcport == Some(port)
  {
    assert r.marks == {} by {
      forall m | m in r.marks ensures false { match m case AbtsTmoWait => case ElsTmoWait => case ElsAborted => }
    }
  }

  lemma {:induction false} ElsBegins(s: State, port: nat, cb: CbArg, e: Env, x: nat, k: int)
    requires InvExcept(s, x, k) && x < NUM_TASKS && ElsStarts(s, port, e)
    requires if cb.op.Adisc? then k == 0 else cb.aborted == Some(x) && s.reqs[x].alloc && !ElsWaiting(s.reqs[x])
    ensures InvExcept(InitiateEls(s, port, cb, e), x, k + One(!cb.op.Adisc?))
  {
    ElsTaken(s, FreeSlot(s, port, e).value, port, cb, x, k);
  }

  lemma {:induction false} ElsTaken(s: State, n: nat, port: nat, cb: CbArg, x: nat, k: int)
    requires InvExcept(s, x, k) && x < NUM_TASKS && MayTake(s, n, port)
    requires if cb.op.Adisc? then k == 0 else cb.aborted == Some(x) && s.reqs[x].alloc && !ElsWaiting(s.reqs[x])
    ensures InvExcept(Take(s, n, port, ElsPosted(ElsFresh(s.reqs[n], port, cb))), x, k + One(!cb.op.Adisc?))
  {
    FreeHasNoRefs(s, n, x, k);
    ElsFreshOk(s.reqs[n], port, cb);
    TakeInv(s, n, port, ElsPosted(ElsFresh(s.reqs[n], port, cb)), x, k);
  }

  lemma {:induction false} ElsNotBegun(s: State, port: nat, cb: CbArg, e: Env, x: nat, k: int)
    requires InvExcept(s, x, k) && x < NUM_TASKS && !ElsStarts(s, port, e) && (k == 0 || s.reqs[x].alloc)
    ensures InvExcept(InitiateEls(s, port, cb, e), x, k)
  {
    if e.elsReady && e.ready && FreeSlot(s, port, e).Some? {
      var n := FreeSlot(s, port, e).value;
      ElsDropped(s, n, port, cb, e, x, k);
    }
  }

  lemma {:induction false} ElsDropped(s: State, n: nat, port: nat, cb: CbArg, e: Env, x: nat, k: int)
    requires InvExcept(s, x, k) && x < NUM_TASKS && MayTake(s, n, port) && (k == 0 || s.reqs[x].alloc)
    ensures var r := ElsFresh(s.reqs[n], port, cb);
            InvExcept(Store(Take(s, n, port, r), n, Put(r)), x, k)
  {
    FreeHasNoRefs(s, n, x, k);
    ElsFreshOk(s.reqs[n], port, cb);
    var r := ElsFresh(s.reqs[n], port, cb);
    GivenBack(s, n, port, r, Put(r));
    TouchFree(s, Store(Take(s, n, port, r), n, Put(r)), n, Put(r), 0, x, k);
  }

  /** Requests in use, other than the one a handler works on, are left alone. */
  ghost predicate Leaves(s: State, s': State, y: nat) {
    && |s'.reqs| == |s.reqs| && s'.running == s.running
    && (y < |s.reqs| && s.reqs[y].alloc ==> s'.reqs[y] == s.reqs[y])
  }

  lemma {:induction false} ElsLeaves(s: State, port: nat, cb: CbArg, e: Env, y: nat)
    requires WellFormed(s)
    ensures Leaves(s, InitiateEls(s, port, cb, e), y)
  {}

  // ---- Moving a command to a second exchange

  /** The first exchange gives up the command but stays allocated: an ELS request refers to it. */
  lemma {:induction false} RequeueReleases(s: State, x: nat)
    requires Sound(s) && x < NUM_TASKS && s.reqs[x].scCmd.Some? && Incoming(s, x) > 0
    ensures var r := s.reqs[x]; var s1 := Store(s, x, Put(Unbind(r)));
            && Sound(s1) && s1.reqs[x].alloc && s1.reqs[x].scCmd.None? && !Holds(s1, r.scCmd.value)
            && s1.active == s.active && s1.freeCnt == s.freeCnt
            && Count(s1.log, GivesBack(r.scCmd.value)) < Count(s1.log, Accepts(r.scCmd.value))
  {
    var r := s.reqs[x];
    ReqAt(s, x);
    UnbindKeeps(r, Incoming(s, x));
    StoreKeeps(s, x, Put(Unbind(r)));
    assert Holds(s, r.scCmd.value);
  }

  lemma {:induction false} RequeueAborts(s: State, x: nat, e: Env)
    requires Sound(s) && x < NUM_TASKS && s.reqs[x].alloc && s.reqs[x].scCmd.None?
    ensures Sound(Store(s, x, InitiateAbts(s.reqs[x], false, e)))
  {
    ReqAt(s, x);
    AbtsKeeps(s.reqs[x], Incoming(s, x), false, e);
    StoreKeeps(s, x, InitiateAbts(s.reqs[x], false, e));
  }

  lemma {:induction false} PostLeaves(s: State, n: nat, port: nat, c: nat, e: Env, y: nat)
    requires WellFormed(s) && MayTake(s, n, port)
    ensures Leaves(s, PostOn(s, n, port, c, e), y)
  {}

  /** Releasing the first exchange and taking the second commute. */
  lemma {:induction false} RequeueOrder(s: State, x: nat, n: nat, port: nat, r: IoReq)
    requires WellFormed(s) && x < NUM_TASKS && MayTake(s, n, port) && x != n && r.alloc
    ensures Store(TakeFresh(s, n, port, ScsiCmd), x, r) == TakeFresh(Store(s, x, r), n, port, ScsiCmd)
  {
    var f := Fresh(s.reqs[n], port, ScsiCmd);
    assert s.reqs[n := f][x := r] == s.reqs[x := r][n := f];
  }

  lemma {:induction false} RequeueReposts(s1: State, x: nat, n: nat, port: nat, c: nat, e: Env)
    requires Sound(s1) && x < NUM_TASKS && s1.reqs[x].alloc && s1.reqs[x].scCmd.None?
    requires MayTake(s1, n, port) && !Holds(s1, c)
    requires Count(s1.log, GivesBack(c)) < Count(s1.log, Accepts(c))
    ensures var s2 := PostOn(s1, n, port, c, e);
            Sound(s2) && Sound(Store(s2, x, InitiateAbts(s2.reqs[x], false, e)))
  {
    PostKeeps(s1, n, port, c, e);
    PostLeaves(s1, n, port, c, e, x);
    RequeueAborts(PostOn(s1, n, port, c, e), x, e);
  }

  lemma {:induction false} RequeueKeeps(s: State, x: nat, e: Env)
    requires Sound(s) && x < NUM_TASKS && Incoming(s, x) > 0
    ensures Sound(Requeue(s, x, e))
  {
    var r := s.reqs[x];
    ReqAt(s, x);
    if r.scCmd.Some? {
      var n := FreeSlot(s, r.fcport.value, e);
      if n.Some? { RequeueTaken(s, x, n.value, r.fcport.value, e); }
    }
  }

  lemma {:induction false} RequeueTaken(s: State, x: nat, n: nat, port: nat, e: Env)
    requires Sound(s) && x < NUM_TASKS && s.reqs[x].alloc && s.reqs[x].scCmd.Some? && Incoming(s, x) > 0
    requires MayTake(s, n, port)
    ensures var s1 := TakeFresh(s, n, port, ScsiCmd);
            var s2 := PostTaken(Store(s1, x, Put(Unbind(s1.reqs[x]))), n, s.reqs[x].scCmd.value, e);
            Sound(s2) && Sound(Store(s2, x, InitiateAbts(s2.reqs[x], false, e)))
  {
    var r' := Put(Unbind(s.reqs[x]));
    RequeueReleases(s, x);
    RequeueOrder(s, x, n, port, r');
    RequeueReposts(Store(s, x, r'), x, n, port, s.reqs[x].scCmd.value, e);
  }

  lemma {:induction false} RequeueLeaves(s: State, x: nat, e: Env, y: nat)
    requires WellFormed(s) && x < NUM_TASKS && x != y
    ensures Leaves(s, Requeue(s, x, e), y)
  {}

  // ---- Recovery ELSs

  lemma {:induction false} AbortInstead(s: State, x: nat, e: Env)
    requires Sound(s) && x < NUM_TASKS && s.reqs[x].alloc
    ensures Sound(Store(s, x, InitiateAbts(s.reqs[x], true, e)))
  {
    ReqAt(s, x);
    AbtsKeeps(s.reqs[x], Incoming(s, x), true, e);
    StoreKeeps(s, x, InitiateAbts(s.reqs[x], true, e));
  }

  /** The reference that the ELS request will hold on `x` is taken first. */
  lemma {:induction false} TargetGets(s: State, x: nat)
    requires Sound(s) && x < NUM_TASKS && s.reqs[x].alloc && !ElsWaiting(s.reqs[x])
    ensures var s0 := Store(s, x, Get(s.reqs[x]));
            InvExcept(s0, x, -1) && s0.reqs[x].alloc && s0.reqs[x].refs > 1 && !ElsWaiting(s0.reqs[x])
  {
    ReqAt(s, x);
    GetKeeps(s.reqs[x], Incoming(s, x));
    Exempting(s, 0, x);
    StoreExempt(s, x, Get(s.reqs[x]), 0, -1);
  }

  /** Whether or not the ELS goes out, `x` keeps its extra reference; if it does, it has an owner. */
  lemma {:induction false} SrrOrRec(s0: State, x: nat, port: nat, op: ElsOp, e: Env)
    requires InvExcept(s0, x, -1) && x < NUM_TASKS && s0.reqs[x].alloc && !ElsWaiting(s0.reqs[x]) && !op.Adisc?
    ensures var s1 := InitiateEls(s0, port, CbArg(op, Some(x)), e);
            && s1.reqs[x] == s0.reqs[x]
            && (if ElsStarts(s0, port, e) then Sound(s1) else InvExcept(s1, x, -1))
  {
    ElsLeaves(s0, port, CbArg(op, Some(x)), e, x);
    if ElsStarts(s0, port, e) {
      ElsBegins(s0, port, CbArg(op, Some(x)), e, x, -1);
      Exempting(InitiateEls(s0, port, CbArg(op, Some(x)), e), x, 0);
    } else {
      ElsNotBegun(s0, port, CbArg(op, Some(x)), e, x, -1);
    }
  }

  lemma {:induction false} SrrGivenUp(s1: State, x: nat, e: Env)
    requires InvExcept(s1, x, -1) && x < NUM_TASKS
    ensures Sound(Store(s1, x, Put(InitiateAbts(s1.reqs[x], true, e))))
  {
    assert ReqExcept(s1, x, x, -1);
    AbtsAndDrop(s1.reqs[x], Incoming(s1, x), e);
    StoreExempt(s1, x, Put(InitiateAbts(s1.reqs[x], true, e)), -1, 0);
  }

  lemma {:induction false} RecGivenUp(s1: State, x: nat, e: Env)
    requires InvExcept(s1, x, -1) && x < NUM_TASKS && s1.reqs[x].alloc && s1.reqs[x].refs > 1
    ensures Sound(Store(s1, x, InitiateAbts(Put(s1.reqs[x]), true, e)))
  {
    assert ReqExcept(s1, x, x, -1);
    DropAndAbts(s1.reqs[x], Incoming(s1, x), e);
    StoreExempt(s1, x, InitiateAbts(Put(s1.reqs[x]), true, e), -1, 0);
  }

  lemma {:induction false} SrrBegins(s1: State, x: nat)
    requires Sound(s1) && x < NUM_TASKS
    ensures Sound(Store(s1, x, SrrBegin(s1.reqs[x])))
  {
    ReqAt(s1, x);
    SrrBeginKeeps(s1.reqs[x], Incoming(s1, x));
    StoreKeeps(s1, x, SrrBegin(s1.reqs[x]));
  }

  lemma {:induction false} SrrKeeps(s: State, x: nat, e: Env)
    requires Sound(s) && x < NUM_TASKS && s.reqs[x].alloc && !ElsWaiting(s.reqs[x])
    ensures Sound(SendSrr(s, x, e))
  {
    var port := s.reqs[x].fcport;
    if port.Some? && e.ready {
      var s0 := Store(s, x, Get(s.reqs[x]));
      TargetGets(s, x);
      if e.memory {
        var s1 := InitiateEls(s0, port.value, CbArg(Srr, Some(x)), e);
        SrrOrRec(s0, x, port.value, Srr, e);
        if ElsStarts(s0, port.value, e) { SrrBegins(s1, x); } else { SrrGivenUp(s1, x, e); }
      } else {
        SrrGivenUp(s0, x, e);
      }
    }
  }

  lemma {:induction false} SrrLeaves(s: State, x: nat, e: Env, y: nat)
    requires WellFormed(s) && x < NUM_TASKS && x != y
    ensures Leaves(s, SendSrr(s, x, e), y)
  {
    if s.reqs[x].fcport.Some? {
      ElsLeaves(Store(s, x, Get(s.reqs[x])), s.reqs[x].fcport.value, CbArg(Srr, Some(x)), e, y);
    }
  }

  lemma {:induction false} RecKeeps(s: State, x: nat, e: Env)
    requires Sound(s) && x < NUM_TASKS && s.reqs[x].alloc && !ElsWaiting(s.reqs[x])
    ensures Sound(SendRec(s, x, e))
  {
    var port := s.reqs[x].fcport;
    if port.Some? && e.ready {
      var s0 := Store(s, x, Get(s.reqs[x]));
      TargetGets(s, x);
      if e.memory {
        var s1 := InitiateEls(s0, port.value, CbArg(Rec, Some(x)), e);
        SrrOrRec(s0, x, port.value, Rec, e);
        if !ElsStarts(s0, port.value, e) { RecGivenUp(s1, x, e); }
      } else {
        RecGivenUp(s0, x, e);
      }
    } else {
      AbortInstead(s, x, e);
    }
  }

  // ---- RRQ

  /** The RRQ's reference passes from the queued work to the ELS request that is sent. */
  lemma {:induction false} RrqSent(s0: State, x: nat, port: nat, e: Env)
    requires InvExcept(s0, x, -1) && x < NUM_TASKS && s0.reqs[x].alloc && !ElsWaiting(s0.reqs[x])
    ensures var s1 := InitiateEls(s0, port, CbArg(Rrq, Some(x)), e);
            if ElsStarts(s0, port, e) then Sound(s1) else Sound(Store(s1, x, Put(s1.reqs[x])))
  {
    SrrOrRec(s0, x, port, Rrq, e);
    if !ElsStarts(s0, port, e) { DropExempt(InitiateEls(s0, port, CbArg(Rrq, Some(x)), e), x, -1); }
  }

  lemma {:induction false} RrqStored(s: State, x: nat)
    requires Sound(s) && x < NUM_TASKS && RrqWork in s.reqs[x].pending
    ensures var r := RrqBegin(s.reqs[x]);
            Sound(Store(s, x, Abandon(r))) && Sound(Store(s, x, Put(r))) && InvExcept(Store(s, x, r), x, -1)
  {
    var r, inc := s.reqs[x], Incoming(s, x);
    ReqAt(s, x);
    RrqBeginKeeps(r, inc);
    RrqAbandons(r, inc);
    StoreKeeps(s, x, Abandon(RrqBegin(r)));
    Exempting(s, 0, x);
    StoreExempt(s, x, RrqBegin(r), 0, -1);
    DropKeeps(RrqBegin(r), inc + 1);
    KeepsTransitive(r, RrqBegin(r), Put(RrqBegin(r)), inc + 1, inc);
    StoreKeeps(s, x, Put(RrqBegin(r)));
  }

  lemma {:induction false} RrqKeeps(s: State, x: nat, e: Env)
    requires Sound(s) && x < NUM_TASKS && RrqWork in s.reqs[x].pending
    ensures Sound(SendRrq(s, x, e))
  {
    ReqAt(s, x);
    RrqBeginKeeps(s.reqs[x], Incoming(s, x));
    RrqStored(s, x);
    RrqSent(Store(s, x, RrqBegin(s.reqs[x])), x, s.reqs[x].fcport.value, e);
  }

  lemma {:induction false} AdiscKeeps(s: State, port: nat, e: Env)
    requires Sound(s)
    ensures Sound(InitiateEls(s, port, CbArg(Adisc, None), e))
  {
    if ElsStarts(s, port, e) {
      ElsBegins(s, port, CbArg(Adisc, None), e, 0, 0);
    } else {
      ElsNotBegun(s, port, CbArg(Adisc, None), e, 0, 0);
    }
  }
}
