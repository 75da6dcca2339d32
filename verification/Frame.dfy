/** What a step leaves alone: every request but the one its handler is for keeps its bookkeeping, its flush
    and its callback, and unless a lost command is requeued no command changes hands on the way. */
module Frame {
  import opened Requests
  import opened Exchange
  import opened Holders
  import opened ExchangeInvariant
  import opened StepInvariant
  import opened ElsCallbacks
  import opened ElsSteps

  // ---- One request

  /** A pending ELS has its timer running, or has timed out already and only waits for its completion. */
  ghost predicate Timed(r: IoReq) {
    r.alloc && r.cmdType.Els? ==> TimeoutWork in r.pending || (r.event.EvElsTmo? && r.cb.None?)
  }

  ghost predicate Tidy(r: IoReq, r': IoReq) {
    && r'.abandoned == r.abandoned && r'.flushWait == r.flushWait
    && (ElsAborted in r'.marks <==> ElsAborted in r.marks) && (ElsTmoWait in r'.marks <==> ElsTmoWait in r.marks)
    && (Timed(r) ==> Timed(r')) && (r.alloc ==> r'.cb == r.cb)
  }

  ghost predicate Calm(r: IoReq, r': IoReq) { Tidy(r, r') && r'.cb == r.cb }

  lemma {:induction false} CalmTwice(r: IoReq, r1: IoReq, r2: IoReq)
    requires Calm(r, r1) && Calm(r1, r2)
    ensures Calm(r, r2)
  {}

  lemma {:induction false} CalmPlain(r: IoReq)
    ensures Calm(r, Put(r)) && Calm(r, Get(r)) && Calm(r, CleanupDone(r)) && Calm(r, RrqBegin(r))
    ensures Calm(r, SrrBegin(r)) && Calm(r, EhBegin(r)) && Calm(r, EhEnd(r)) && Calm(r, Put(Unbind(r)))
  {}

  lemma {:induction false} CalmTimer(r: IoReq)
    requires !(r.alloc && r.cmdType.Els?)
    ensures Calm(r, StopTimer(r))
  {}

  lemma {:induction false} CalmAbort(r: IoReq, returnCmd: bool, e: Env)
    requires !r.cmdType.Els?
    ensures Calm(r, InitiateAbts(r, returnCmd, e))
  {}

  lemma {:induction false} CalmSrr(r: IoReq, e: Env)
    requires !r.cmdType.Els?
    ensures Calm(r, Put(InitiateAbts(r, true, e))) && Calm(r, InitiateAbts(Put(r), true, e))
  {
    CalmAbort(r, true, e);
    CalmPlain(InitiateAbts(r, true, e));
    CalmTwice(r, InitiateAbts(r, true, e), Put(InitiateAbts(r, true, e)));
    CalmPlain(r);
    CalmAbort(Put(r), true, e);
    CalmTwice(r, Put(r), InitiateAbts(Put(r), true, e));
  }

  lemma {:induction false} CalmSrrReturns(r: IoReq, ev: Event, e: Env)
    requires !r.cmdType.Els?
    ensures Calm(r, SrrReturns(r, ev, e))
  {}

  lemma {:induction false} TidyFresh(r: IoReq, port: nat, cb: CbArg)
    requires !r.alloc
    ensures Tidy(r, ElsPosted(ElsFresh(r, port, cb))) && Tidy(r, Put(ElsFresh(r, port, cb)))
  {}

  lemma {:induction false} CalmFresh(r: IoReq, port: nat, c: nat, ok: bool)
    requires !r.alloc
    ensures var f := Fresh(r, port, ScsiCmd);
            Calm(r, f) && Calm(f, Bind(f, c, ok)) && Calm(f, Put(Unbind(Bind(f, c, ok))))
  {}

  // ---- The pool

  ghost predicate AllTidy(s: State, s': State) {
    |s'.reqs| == |s.reqs| && forall i :: 0 <= i < |s.reqs| ==> Tidy(s.reqs[i], s'.reqs[i])
  }

  ghost predicate SameAlloc(s: State, s': State) {
    |s'.reqs| == |s.reqs| && forall i :: 0 <= i < |s.reqs| ==> s'.reqs[i].alloc == s.reqs[i].alloc
  }

  /** No command changes hands; a free request may lose a stale one. */
  ghost predicate SameCmds(s: State, s': State) {
    && |s'.reqs| == |s.reqs| && s'.scp == s.scp && s'.log == s.log
    && forall i :: 0 <= i < |s.reqs| ==>
         s'.reqs[i].scCmd == s.reqs[i].scCmd || (!s.reqs[i].alloc && s'.reqs[i].scCmd.None?)
  }

  ghost predicate Still(s: State, s': State) { AllTidy(s, s') && SameCmds(s, s') }

  lemma {:induction false} TidyAfter(s: State, s0: State, s1: State)
    requires AllTidy(s, s0) && SameAlloc(s, s0) && AllTidy(s0, s1)
    ensures AllTidy(s, s1)
  {
    forall i | 0 <= i < |s.reqs| ensures Tidy(s.reqs[i], s1.reqs[i]) {
      assert Tidy(s.reqs[i], s0.reqs[i]) && Tidy(s0.reqs[i], s1.reqs[i]);
    }
  }

  lemma {:induction false} CmdsAfter(s: State, s0: State, s1: State)
    requires SameCmds(s, s0) && SameAlloc(s, s0) && SameCmds(s0, s1)
    ensures SameCmds(s, s1)
  {
    forall i | 0 <= i < |s.reqs|
      ensures s1.reqs[i].scCmd == s.reqs[i].scCmd || (!s.reqs[i].alloc && s1.reqs[i].scCmd.None?)
    {
      assert s0.reqs[i].scCmd == s.reqs[i].scCmd || (!s.reqs[i].alloc && s0.reqs[i].scCmd.None?);
    }
  }

  lemma {:induction false} StillAfter(s: State, s0: State, s1: State)
    requires Still(s, s0) && SameAlloc(s, s0) && Still(s0, s1)
    ensures Still(s, s1)
  {
    TidyAfter(s, s0, s1);
    CmdsAfter(s, s0, s1);
  }

  lemma {:induction false} TidyStore(s: State, x: nat, r: IoReq)
    requires x < |s.reqs| && Calm(s.reqs[x], r)
    ensures AllTidy(s, Store(s, x, r)) && (r.alloc == s.reqs[x].alloc ==> SameAlloc(s, Store(s, x, r)))
    ensures r.scCmd == s.reqs[x].scCmd ==> Still(s, Store(s, x, r))
  {}

  lemma {:induction false} TidyThen(s: State, s1: State, x: nat, r: IoReq)
    requires AllTidy(s, s1) && x < |s1.reqs| && Calm(s1.reqs[x], r)
    ensures AllTidy(s, Store(s1, x, r))
  {
    forall i | 0 <= i < |s.reqs| ensures Tidy(s.reqs[i], Store(s1, x, r).reqs[i]) {
      assert Tidy(s.reqs[i], s1.reqs[i]);
    }
  }

  lemma {:induction false} StillThen(s: State, s1: State, x: nat, r: IoReq)
    requires Still(s, s1) && x < |s1.reqs| && Calm(s1.reqs[x], r) && r.scCmd == s1.reqs[x].scCmd
    ensures Still(s, Store(s1, x, r))
  {
    TidyThen(s, s1, x, r);
    assert SameCmds(s, Store(s1, x, r));
  }

  lemma {:induction false} StillEls(s: State, port: nat, cb: CbArg, e: Env)
    requires WellFormed(s)
    ensures Still(s, InitiateEls(s, port, cb, e))
  {
    var n := FreeSlot(s, port, e);
    if n.Some? { TidyFresh(s.reqs[n.value], port, cb); }
  }

  lemma {:induction false} TidyTake(s: State, n: nat, port: nat)
    requires WellFormed(s) && n < NUM_TASKS && port < |s.active| && !s.reqs[n].alloc
    ensures AllTidy(s, TakeFresh(s, n, port, ScsiCmd))
  {
    CalmFresh(s.reqs[n], port, 0, true);
  }

  lemma {:induction false} TidyPost(s: State, n: nat, port: nat, c: nat, e: Env)
    requires WellFormed(s) && n < NUM_TASKS && port < |s.active| && !s.reqs[n].alloc
    ensures AllTidy(s, PostOn(s, n, port, c, e))
  {
    CalmFresh(s.reqs[n], port, c, e.postOk);
  }

  lemma {:induction false} TidyQueue(s: State, port: nat, c: nat, e: Env)
    requires WellFormed(s)
    ensures AllTidy(s, QueueCmd(s, port, c, e))
  {
    var n := FreeSlot(s, port, e);
    if n.Some? {
      TidyPost(s, n.value, port, c, e);
      TidyPost(s.(log := s.log + [Accepted(c)]), n.value, port, c, e);
    }
  }

  /** `x` gets a reference, and the ELS is sent if there is memory for it; `x` itself stays. */
  lemma {:induction false} StillSend(s: State, x: nat, port: nat, op: ElsOp, e: Env)
    requires WellFormed(s) && x < NUM_TASKS && s.reqs[x].alloc
    ensures var s0 := Store(s, x, Get(s.reqs[x]));
            var s1 := if e.memory then InitiateEls(s0, port, CbArg(op, Some(x)), e) else s0;
            Still(s, s1) && s1.reqs[x] == Get(s.reqs[x])
  {
    var s0 := Store(s, x, Get(s.reqs[x]));
    TidyStore(s, x, Get(s.reqs[x]));
    StillEls(s0, port, CbArg(op, Some(x)), e);
    ElsLeaves(s0, port, CbArg(op, Some(x)), e, x);
    StillAfter(s, s0, InitiateEls(s0, port, CbArg(op, Some(x)), e));
  }

  lemma {:induction false} StillSrr(s: State, x: nat, e: Env)
    requires WellFormed(s) && x < NUM_TASKS && s.reqs[x].alloc && !s.reqs[x].cmdType.Els?
    ensures Still(s, SendSrr(s, x, e))
  {
    var port := s.reqs[x].fcport;
    if port.Some? && e.ready {
      var s0 := Store(s, x, Get(s.reqs[x]));
      var s1 := if e.memory then InitiateEls(s0, port.value, CbArg(Srr, Some(x)), e) else s0;
      StillSend(s, x, port.value, Srr, e);
      if e.memory && ElsStarts(s0, port.value, e) {
        CalmPlain(s1.reqs[x]);
        StillThen(s, s1, x, SrrBegin(s1.reqs[x]));
      } else {
        CalmSrr(s1.reqs[x], e);
        StillThen(s, s1, x, Put(InitiateAbts(s1.reqs[x], true, e)));
      }
    }
  }

  lemma {:induction false} StillRec(s: State, x: nat, e: Env)
    requires WellFormed(s) && x < NUM_TASKS && s.reqs[x].alloc && !s.reqs[x].cmdType.Els?
    ensures Still(s, SendRec(s, x, e))
  {
    var port := s.reqs[x].fcport;
    CalmAbort(s.reqs[x], true, e);
    if port.None? || !e.ready {
      TidyStore(s, x, InitiateAbts(s.reqs[x], true, e));
    } else {
      var s0 := Store(s, x, Get(s.reqs[x]));
      var s1 := if e.memory then InitiateEls(s0, port.value, CbArg(Rec, Some(x)), e) else s0;
      StillSend(s, x, port.value, Rec, e);
      CalmSrr(s1.reqs[x], e);
      StillThen(s, s1, x, InitiateAbts(Put(s1.reqs[x]), true, e));
    }
  }

  /** An RRQ that is sent, or given up without keeping its reference. */
  lemma {:induction false} StillRrq(s: State, x: nat, e: Env)
    requires WellFormed(s) && x < NUM_TASKS && !(s.reqs[x].fcport.Some? && (!e.ready || s.reqs[x].refs != 1))
    ensures Still(s, SendRrq(s, x, e))
  {
    var r := RrqBegin(s.reqs[x]);
    CalmPlain(s.reqs[x]);
    CalmPlain(r);
    if r.fcport.None? || !e.memory {
      TidyStore(s, x, Put(r));
    } else {
      TidyStore(s, x, r);
      StillRrqSent(s, Store(s, x, r), x, r.fcport.value, e);
    }
  }

  lemma {:induction false} StillRrqSent(s: State, s0: State, x: nat, port: nat, e: Env)
    requires WellFormed(s0) && x < NUM_TASKS && Still(s, s0) && SameAlloc(s, s0)
    ensures var s1 := InitiateEls(s0, port, CbArg(Rrq, Some(x)), e);
            Still(s, s1) && Still(s, Store(s1, x, Put(s1.reqs[x])))
  {
    var s1 := InitiateEls(s0, port, CbArg(Rrq, Some(x)), e);
    StillEls(s0, port, CbArg(Rrq, Some(x)), e);
    StillAfter(s, s0, s1);
    CalmPlain(s1.reqs[x]);
    StillThen(s, s1, x, Put(s1.reqs[x]));
  }

  lemma {:induction false} TidyRequeue(s: State, x: nat, e: Env)
    requires WellFormed(s) && x < NUM_TASKS && s.reqs[x].alloc && !s.reqs[x].cmdType.Els?
    ensures AllTidy(s, Requeue(s, x, e))
  {
    var r := s.reqs[x];
    if r.fcport.Some? && r.scCmd.Some? {
      var n := FreeSlot(s, r.fcport.value, e);
      if n.Some? { TidyMoved(s, x, n.value, r.fcport.value, r.scCmd.value, e); }
    }
  }

  lemma {:induction false} TidyMoved(s: State, x: nat, n: nat, port: nat, c: nat, e: Env)
    requires WellFormed(s) && x < NUM_TASKS && s.reqs[x].alloc && !s.reqs[x].cmdType.Els?
    requires n < NUM_TASKS && port < |s.active| && !s.reqs[n].alloc
    ensures var s1 := TakeFresh(s, n, port, ScsiCmd);
            var s2 := PostTaken(Store(s1, x, Put(Unbind(s1.reqs[x]))), n, c, e);
            AllTidy(s, s2) && AllTidy(s, Store(s2, x, InitiateAbts(s2.reqs[x], false, e)))
  {
    var s1 := TakeFresh(s, n, port, ScsiCmd);
    var s' := Store(s1, x, Put(Unbind(s1.reqs[x])));
    var s2 := PostTaken(s', n, c, e);
    TidyTake(s, n, port);
    CalmPlain(s1.reqs[x]);
    TidyThen(s, s1, x, Put(Unbind(s1.reqs[x])));
    CalmFresh(s.reqs[n], port, c, e.postOk);
    TidyBound(s, s', n, c, e);
    CalmAbort(s2.reqs[x], false, e);
    TidyThen(s, s2, x, InitiateAbts(s2.reqs[x], false, e));
  }

  lemma {:induction false} TidyBound(s: State, s1: State, n: nat, c: nat, e: Env)
    requires WellFormed(s1) && AllTidy(s, s1) && n < NUM_TASKS
    requires var f, b := s1.reqs[n], Bind(s1.reqs[n], c, e.postOk); Calm(f, b) && Calm(f, Put(Unbind(b)))
    ensures AllTidy(s, PostTaken(s1, n, c, e))
  {
    var s' := PostTaken(s1, n, c, e);
    forall i | 0 <= i < |s.reqs| ensures Tidy(s.reqs[i], s'.reqs[i]) {
      assert Tidy(s.reqs[i], s1.reqs[i]);
      if i != n { assert s'.reqs[i] == s1.reqs[i]; }
    }
  }

  // ---- ELS callbacks

  /** The callback will requeue the command of the request it was sent for. */
  predicate CallsRequeue(op: ElsOp, ev: Event, e: Env) { op.Rec? && !ev.EvElsTmo? && e.reply.CommandLost? }

  lemma {:induction false} TidyRecAnswered(s: State, x: nat, e: Env)
    requires WellFormed(s) && x < NUM_TASKS && s.reqs[x].alloc && !s.reqs[x].cmdType.Els?
    ensures AllTidy(s, RecAnswered(s, x, e)) && (!e.reply.CommandLost? ==> SameCmds(s, RecAnswered(s, x, e)))
  {
    var s1 := Store(s, x, StopTimer(s.reqs[x]));
    CalmTimer(s.reqs[x]);
    TidyStore(s, x, StopTimer(s.reqs[x]));
    if e.reply.CommandLost? {
      TidyRequeue(s1, x, e);
      TidyAfter(s, s1, Requeue(s1, x, e));
    } else {
      StillSrr(s1, x, e);
      StillAfter(s, s1, SendSrr(s1, x, e));
    }
  }

  lemma {:induction false} TidyActs(s: State, op: ElsOp, x: nat, ev: Event, e: Env)
    requires WellFormed(s) && x < NUM_TASKS && s.reqs[x].alloc && !s.reqs[x].cmdType.Els?
    ensures var s' := CallbackActs(s, op, x, ev, e); AllTidy(s, s') && (!CallsRequeue(op, ev, e) ==> SameCmds(s, s'))
  {
    match op
    case Adisc =>
    case Rrq =>
    case Rec => if !ev.EvElsTmo? { TidyRecAnswered(s, x, e); }
    case Srr =>
      CalmSrrReturns(s.reqs[x], ev, e);
      TidyStore(s, x, SrrReturns(s.reqs[x], ev, e));
  }

  lemma {:induction false} TidyCalled(s: State, op: ElsOp, x: nat, ev: Event, e: Env)
    requires WellFormed(s) && x < NUM_TASKS && s.reqs[x].alloc && !s.reqs[x].cmdType.Els?
    ensures var s1 := CallbackActs(s, op, x, ev, e); var s' := Store(s1, x, Put(s1.reqs[x]));
            AllTidy(s, s') && (!CallsRequeue(op, ev, e) ==> SameCmds(s, s'))
  {
    var s1 := CallbackActs(s, op, x, ev, e);
    TidyActs(s, op, x, ev, e);
    CalmPlain(s1.reqs[x]);
    TidyThen(s, s1, x, Put(s1.reqs[x]));
    if !CallsRequeue(op, ev, e) { StillThen(s, s1, x, Put(s1.reqs[x])); }
  }

  /** The target of a waiting ELS is in use and is not an ELS itself; its callback finds it. */
  lemma {:induction false} CalledAs(s: State, y: nat, e: Env)
    requires Sound(s) && y < NUM_TASKS && ElsWaiting(s.reqs[y])
    ensures var r := s.reqs[y];
            match Target(r)
            case None => Callback(s, r.cb, r.event, e) == s
            case Some(x) =>
              && x < NUM_TASKS && x != y && s.reqs[x].alloc && !ElsWaiting(s.reqs[x])
              && r.cb == Some(CbArg(r.cb.value.op, Some(x)))
              && var s1 := CallbackActs(s, r.cb.value.op, x, r.event, e);
                 Callback(s, r.cb, r.event, e) == Store(s1, x, Put(s1.reqs[x]))
  {
    var r := s.reqs[y];
    if Target(r).Some? {
      var x := Target(r).value;
      Targeted(s, y, x);
      ReqAt(s, x);
      if r.cb.value.op.Rrq? { assert s.reqs[x].refs > 0; }
    }
  }

  lemma {:induction false} TidyCallback(s: State, y: nat, e: Env)
    requires Sound(s) && y < NUM_TASKS && ElsWaiting(s.reqs[y])
    ensures var r := s.reqs[y]; var s' := Callback(s, r.cb, r.event, e);
            AllTidy(s, s') && (!(r.cb.Some? && CallsRequeue(r.cb.value.op, r.event, e)) ==> SameCmds(s, s'))
  {
    CalledAs(s, y, e);
    if Target(s.reqs[y]).Some? {
      TidyCalled(s, s.reqs[y].cb.value.op, Target(s.reqs[y]).value, s.reqs[y].event, e);
    }
  }

  /** Every request but `y` is left in order. */
  ghost predicate TidyBut(s: State, s': State, y: nat) {
    |s'.reqs| == |s.reqs| && forall i :: 0 <= i < |s.reqs| && i != y ==> Tidy(s.reqs[i], s'.reqs[i])
  }

  /** The handler of `y` stores `r`, runs the callback and leaves `r'`. */
  lemma {:induction false} TidyRun(s: State, y: nat, r: IoReq, r': IoReq, e: Env)
    requires Poised(s, y, r, r', e)
    ensures var s' := Ended(s, y, r, r', e); TidyBut(s, s', y) && s'.reqs[y] == r'
  {
    var s0 := Store(s, y, r);
    assert s0.reqs[y] == r;
    TidyCallback(s0, y, e);
    var s' := Ended(s, y, r, r', e);
    forall i | 0 <= i < |s.reqs| && i != y ensures Tidy(s.reqs[i], s'.reqs[i]) {
      assert s0.reqs[i] == s.reqs[i] && Tidy(s0.reqs[i], RunCallback(s, y, r, e).reqs[i]);
    }
  }
}
