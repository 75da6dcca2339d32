/** What becomes of the request that an ELS is sent for: when a REC, an SRR or an RRQ goes out, and what each answer,
    a timeout or a flush of it does (qedf_els.c:198-346, 577-738, 814-1114). Said of the pool, in the driver's own
    fields. */
module Recovery {
  import opened Requests
  import opened Exchange
  import opened Holders
  import opened Counting
  import opened ExchangeInvariant
  import opened ElsSteps
  import opened ElsCallbacks
  import opened StepInvariant
  import opened Decisions

  // ---- Sending

  /** An ELS can be sent: port and link are ready, a request and its buffers can be had. */
  predicate CanSend(s: State, port: nat, e: Env) { e.elsReady && e.ready && e.mpOk && Roomy(s, port, e) }

  /** An ELS request in flight. */
  ghost predicate InFlight(r: IoReq, port: nat, cb: CbArg) {
    && r.alloc && r.refs == 1 && r.fcport == Some(port) && r.cmdType.Els? && r.cb == Some(cb) && r.scCmd.None?
    && r.flags == {Outstanding} && TimeoutWork in r.pending && r.state.IoActive?
  }

  /** Besides the requests in `touched`, those in use are as before and the free ones are free. */
  ghost predicate Rest(s: State, s': State, touched: set<nat>) {
    && |s'.reqs| == |s.reqs|
    && forall i: nat :: i < |s.reqs| && i !in touched ==>
         s'.reqs[i].alloc == s.reqs[i].alloc && (s.reqs[i].alloc ==> s'.reqs[i] == s.reqs[i])
  }

  /** The next free request has become an ELS request in flight. Its event is what its last use left in it. */
  ghost predicate Sent(s: State, s': State, n: nat, port: nat, cb: CbArg)
    requires WellFormed(s)
  {
    && NextFree(s, n) && |s'.reqs| == |s.reqs| && InFlight(s'.reqs[n], port, cb)
    && s'.reqs[n].event == s.reqs[n].event
  }

  lemma {:induction false} SendsIff(s: State, port: nat, cb: CbArg, e: Env) returns (n: nat)
    requires WellFormed(s) && FreeOk(s)
    ensures ElsStarts(s, port, e) == CanSend(s, port, e)
    ensures var s' := InitiateEls(s, port, cb, e);
            if CanSend(s, port, e) then Sent(s, s', n, port, cb) && Rest(s, s', {n}) else Rest(s, s', {})
  {
    SlotIff(s, port, e);
    n := if Roomy(s, port, e) then FreeSlot(s, port, e).value else 0;
  }

  /** An ADISC goes out if and only if it can be sent. */
  lemma {:induction false} AdiscActs(s: State, port: nat, e: Env) returns (n: nat)
    requires Inv(s)
    ensures var s' := Apply(s, SendAdisc(port, e));
            if e.memory && CanSend(s, port, e) then Sent(s, s', n, port, CbArg(Adisc, None)) && Rest(s, s', {n})
            else Rest(s, s', {})
  {
    n := SendsIff(s, port, CbArg(Adisc, None), e);
  }

  /** The same state apart from request `x`, which stays in use. */
  ghost predicate Swapped(s: State, s0: State, x: nat) {
    && x < |s.reqs| && |s0.reqs| == |s.reqs| && s.reqs[x].alloc && s0.reqs[x].alloc && s0.idx == s.idx
    && s0.freeCnt == s.freeCnt && s0.active == s.active && OnlyAt(s, s0, x)
  }

  lemma {:induction false} SentAlike(s: State, s0: State, s': State, x: nat, n: nat, port: nat, cb: CbArg)
    requires WellFormed(s) && WellFormed(s0) && Swapped(s, s0, x) && Sent(s0, s', n, port, cb)
    ensures Sent(s, s', n, port, cb) && n != x
  {
    var d :| 0 <= d < NUM_TASKS && n == At(s0.idx, d) && !s0.reqs[n].alloc
             && forall k :: 0 <= k < d ==> s0.reqs[At(s0.idx, k)].alloc;
    forall k | 0 <= k < d ensures s.reqs[At(s.idx, k)].alloc { assert s0.reqs[At(s0.idx, k)].alloc; }
  }

  /** A quiet exchange: without an SRR under way a REC is sent for it, and if that cannot be, it is aborted. */
  lemma {:induction false} RecActs(s: State, x: nat, e: Env) returns (n: nat)
    requires Inv(s) && Enabled(s, WarningCqe(x, true, e))
    ensures var s', r := Apply(s, WarningCqe(x, true, e)), s.reqs[x];
            if !Arrives(r, e) || SrrSent in r.flags then s' == s
            else if e.memory && CanSend(s, r.fcport.value, e)
            then && n != x && Sent(s, s', n, r.fcport.value, CbArg(Rec, Some(x))) && Rest(s, s', {x, n})
                 && s'.reqs[x] == r.(refs := r.refs + 1)
            else && Rest(s, s', {x})
                 && if MayAbort(r, e) then Aborting(r, s'.reqs[x], true) else s'.reqs[x] == r
  {
    var r := s.reqs[x];
    n := 0;
    if Arrives(r, e) && SrrSent !in r.flags {
      ReqAt(s, x);
      n := RecSends(s, x, e);
    }
  }

  lemma {:induction false} RecSends(s: State, x: nat, e: Env) returns (n: nat)
    requires WellFormed(s) && FreeOk(s) && x < NUM_TASKS && s.reqs[x].alloc && s.reqs[x].fcport.Some? && e.ready
    requires s.reqs[x].refs > 0
    ensures var s', r := SendRec(s, x, e), s.reqs[x];
            if e.memory && CanSend(s, r.fcport.value, e)
            then && n != x && Sent(s, s', n, r.fcport.value, CbArg(Rec, Some(x))) && Rest(s, s', {x, n})
                 && s'.reqs[x] == r.(refs := r.refs + 1)
            else && Rest(s, s', {x})
                 && if MayAbort(r, e) then Aborting(r, s'.reqs[x], true) else s'.reqs[x] == r
  {
    var r := s.reqs[x];
    var s0, port := Store(s, x, Get(r)), r.fcport.value;
    var s1 := if e.memory then InitiateEls(s0, port, CbArg(Rec, Some(x)), e) else s0;
    n := Sends(s, x, Rec, e);
    AbortIff(r, true, e);
    assert Put(Get(r)) == r;
    if !(e.memory && CanSend(s, port, e)) { RestStore(s, s1, x, InitiateAbts(r, true, e), {x}); }
  }

  /** The request gets its reference, and the ELS goes out if it can be sent. */
  lemma {:induction false} Sends(s: State, x: nat, op: ElsOp, e: Env) returns (n: nat)
    requires WellFormed(s) && FreeOk(s) && x < NUM_TASKS && s.reqs[x].alloc && s.reqs[x].fcport.Some?
    ensures var r, s0 := s.reqs[x], Store(s, x, Get(s.reqs[x]));
            var s1 := if e.memory then InitiateEls(s0, r.fcport.value, CbArg(op, Some(x)), e) else s0;
            && |s1.reqs| == |s.reqs| && s1.reqs[x] == r.(refs := r.refs + 1)
            && ElsStarts(s0, r.fcport.value, e) == CanSend(s, r.fcport.value, e)
            && if e.memory && CanSend(s, r.fcport.value, e)
               then n != x && Sent(s, s1, n, r.fcport.value, CbArg(op, Some(x))) && Rest(s, s1, {x, n})
               else Rest(s, s1, {x})
  {
    var r := s.reqs[x];
    var s0, port := Store(s, x, Get(r)), r.fcport.value;
    StoreFreeSame(s, x, Get(r));
    n := SendsIff(s0, port, CbArg(op, Some(x)), e);
    if CanSend(s, port, e) {
      SentAlike(s, s0, InitiateEls(s0, port, CbArg(op, Some(x)), e), x, n, port, CbArg(op, Some(x)));
    }
  }

  lemma {:induction false} RestStore(s: State, s1: State, x: nat, r: IoReq, touched: set<nat>)
    requires x < |s1.reqs| && x in touched && Rest(s, s1, touched)
    ensures Rest(s, Store(s1, x, r), touched) && Store(s1, x, r).reqs[x] == r
    ensures forall i :: 0 <= i < |s1.reqs| && i != x ==> Store(s1, x, r).reqs[i] == s1.reqs[i]
  {}

  /** Storing a request that stays in use does not change the counts. */
  lemma {:induction false} StoreFreeSame(s: State, x: nat, r: IoReq)
    requires FreeOk(s) && x < |s.reqs| && s.reqs[x].alloc == r.alloc && r.life == s.reqs[x].life
    ensures FreeOk(Store(s, x, r))
  {
    CountUpdate(s.reqs, IsFree(), x, r);
  }

  /** qedf_send_srr. */
  lemma {:induction false} SrrSends(s: State, x: nat, e: Env) returns (n: nat)
    requires WellFormed(s) && FreeOk(s) && x < NUM_TASKS && s.reqs[x].alloc && s.reqs[x].fcport.Some?
    requires s.reqs[x].refs > 0
    ensures var s', r := SendSrr(s, x, e), s.reqs[x];
            if e.memory && CanSend(s, r.fcport.value, e)
            then && n != x && Sent(s, s', n, r.fcport.value, CbArg(Srr, Some(x))) && Rest(s, s', {x, n})
                 && s'.reqs[x] == r.(refs := r.refs + 1, flags := r.flags + {SrrSent})
            else && Rest(s, s', {x})
                 && if MayAbort(r, e) then Aborting(r, s'.reqs[x], true) else s'.reqs[x] == r
  {
    var r := s.reqs[x];
    var s0, port := Store(s, x, Get(r)), r.fcport.value;
    n := 0;
    if e.ready {
      var s1 := if e.memory then InitiateEls(s0, port, CbArg(Srr, Some(x)), e) else s0;
      n := Sends(s, x, Srr, e);
      if e.memory && CanSend(s, port, e) {
        RestStore(s, s1, x, SrrBegin(s1.reqs[x]), {x, n});
      } else {
        AbortAndDrop(r, e);
        RestStore(s, s1, x, Put(InitiateAbts(s1.reqs[x], true, e)), {x});
      }
    }
  }

  lemma {:induction false} AbortAndDrop(r: IoReq, e: Env)
    requires r.refs > 0
    ensures var r' := Put(InitiateAbts(Get(r), true, e)); if MayAbort(r, e) then Aborting(r, r', true) else r' == r
  {
    AbortIff(Get(r), true, e);
  }

  // ---- Moving a command

  /** The first exchange without its command and the reference of that. */
  function Emptied(r: IoReq): (r': IoReq) { r.(scCmd := None, refs := r.refs - 1) }

  /** qedf_requeue_io_req moves the command to the next free request if there is one to be had, and then aborts the
      first exchange, if it may; when the post fails the command is on neither. */
  ghost predicate Requeues(s: State, s': State, x: nat, n: nat, e: Env)
    requires WellFormed(s) && x < NUM_TASKS && s.reqs[x].scCmd.Some? && s.reqs[x].fcport.Some?
  {
    var r, c := s.reqs[x], s.reqs[x].scCmd.value;
    && n != x && NextFree(s, n) && |s'.reqs| == |s.reqs| && s'.scp == s.scp[c := n] && s'.log == s.log
    && (if e.postOk then Posted(s'.reqs[n], r.fcport.value, c) else !s'.reqs[n].alloc)
    && if e.postOk && MayAbort(r, e) then Aborting(Emptied(r), s'.reqs[x], false) else s'.reqs[x] == Emptied(r)
  }

  lemma {:induction false} RequeueActs(s: State, x: nat, e: Env) returns (n: nat)
    requires WellFormed(s) && FreeOk(s) && x < NUM_TASKS && s.reqs[x].alloc && s.reqs[x].fcport.Some?
    requires s.reqs[x].refs > 1
    ensures var s', r := Requeue(s, x, e), s.reqs[x];
            if r.scCmd.Some? && Roomy(s, r.fcport.value, e) then Requeues(s, s', x, n, e) && Rest(s, s', {x, n})
            else s' == s
  {
    var r := s.reqs[x];
    SlotIff(s, r.fcport.value, e);
    n := 0;
    if r.scCmd.Some? && Roomy(s, r.fcport.value, e) {
      n := FreeSlot(s, r.fcport.value, e).value;
      RequeueMoves(s, x, n, r.fcport.value, e);
    }
  }

  lemma {:induction false} RequeueMoves(s: State, x: nat, n: nat, port: nat, e: Env)
    requires WellFormed(s) && x < NUM_TASKS && s.reqs[x].alloc && s.reqs[x].fcport == Some(port)
    requires s.reqs[x].refs > 1 && s.reqs[x].scCmd.Some? && MayTake(s, n, port) && NextFree(s, n)
    requires FreeSlot(s, port, e) == Some(n)
    ensures Requeues(s, Requeue(s, x, e), x, n, e) && Rest(s, Requeue(s, x, e), {x, n})
  {
    var r, r' := s.reqs[x], Put(Unbind(s.reqs[x]));
    var s0 := Store(s, x, r');
    assert r' == Emptied(r);
    RequeueOrder(s, x, n, port, r');
    PostActs(s0, n, port, r.scCmd.value, e);
    var s2 := PostOn(s0, n, port, r.scCmd.value, e);
    AbortIff(r', false, e);
    RestStore(s, s2, x, InitiateAbts(r', false, e), {x, n});
  }

  // ---- What the callback does for the original request

  /** The reference of the ELS is dropped, and nothing else happens. */
  ghost predicate LetsGo(r: IoReq, r': IoReq) {
    && Dropped(r, r') && r'.cmdType == r.cmdType && r'.flags == r.flags && r'.scCmd == r.scCmd
    && r'.pending == r.pending && r'.event == r.event && r'.returnOnAbts == r.returnOnAbts
    && (r'.alloc ==> r'.state == r.state && r'.fcport == r.fcport)
  }

  lemma {:induction false} PutLetsGo(r: IoReq)
    ensures LetsGo(r, Put(r))
  {}

  /** `r'` is `r` with an ABTS on its way and one reference less. */
  ghost predicate AbortsAndLetsGo(r: IoReq, r': IoReq, returnCmd: bool) {
    Aborting(r.(refs := r.refs - 1), r', returnCmd)
  }

  lemma {:induction false} PutAborting(r: IoReq, r1: IoReq, returnCmd: bool)
    requires Aborting(r, r1, returnCmd) && r.refs > 0
    ensures AbortsAndLetsGo(r, Put(r1), returnCmd)
  {}

  function Untimed(r: IoReq): (r': IoReq) { r.(pending := r.pending - {TimeoutWork}) }

  /** qedf_rrq_compl: the aborted exchange is let go. */
  ghost predicate RrqDone(s: State, s': State, x: nat, y: nat)
    requires x < |s.reqs| == |s'.reqs|
  {
    LetsGo(s.reqs[x], s'.reqs[x]) && Rest(s, s', {x, y}) && s'.scp == s.scp && s'.log == s.log
  }

  /** qedf_srr_compl: SrrSent is cleared. A rejected SRR aborts the exchange, if it may; any other answer leaves the
      exchange to complete; so does a timeout. */
  ghost predicate SrrDone(s: State, s': State, x: nat, y: nat, ev: Event, e: Env)
    requires x < |s.reqs| == |s'.reqs|
  {
    var r := s.reqs[x].(flags := s.reqs[x].flags - {SrrSent});
    && Rest(s, s', {x, y}) && s'.scp == s.scp && s'.log == s.log
    && if ev.EvElsTmo? then LetsGo(r, s'.reqs[x])
       else if e.reply.SrrRejected? && MayAbort(r, e) then AbortsAndLetsGo(Untimed(r), s'.reqs[x], true)
       else LetsGo(Untimed(r), s'.reqs[x])
  }

  /** qedf_rec_compl: a timeout only lets the exchange go. "Command lost" moves the command. "Response lost" sends an
      SRR for it, or aborts it if that cannot be and the session is up. Anything else lets it go. */
  ghost predicate RecDone(s: State, s': State, x: nat, y: nat, n: nat, ev: Event, e: Env)
    requires WellFormed(s) && x < NUM_TASKS && s.reqs[x].fcport.Some? && |s'.reqs| == |s.reqs|
  {
    var r, port := Untimed(s.reqs[x]), s.reqs[x].fcport.value;
    && s'.log == s.log
    && if ev.EvElsTmo? then LetsGo(s.reqs[x], s'.reqs[x]) && Rest(s, s', {x, y}) && s'.scp == s.scp
    else if e.reply.CommandLost? && r.scCmd.Some? && Roomy(s, port, e) then
      && n != x && NextFree(s, n) && Rest(s, s', {x, y, n}) && s'.scp == s.scp[r.scCmd.value := n]
      && (if e.postOk then Posted(s'.reqs[n], port, r.scCmd.value) else !s'.reqs[n].alloc)
      && (if e.postOk && MayAbort(r, e) then AbortsAndLetsGo(Emptied(r), s'.reqs[x], false)
          else LetsGo(Emptied(r), s'.reqs[x]))
    else if e.reply.ResponseLost? && r.scCmd.Some? && e.memory && CanSend(s, port, e) then
      && n != x && Sent(s, s', n, port, CbArg(Srr, Some(x))) && Rest(s, s', {x, y, n}) && s'.scp == s.scp
      && s'.reqs[x] == r.(flags := r.flags + {SrrSent})
    else
      && Rest(s, s', {x, y}) && s'.scp == s.scp
      && if e.reply.ResponseLost? && r.scCmd.Some? && MayAbort(r, e) then AbortsAndLetsGo(r, s'.reqs[x], true)
         else LetsGo(r, s'.reqs[x])
  }

  /** The original request, in use and with a port, and something else than an ELS. */
  ghost predicate Original(s: State, x: nat) {
    && WellFormed(s) && FreeOk(s) && x < NUM_TASKS && s.reqs[x].alloc && s.reqs[x].fcport.Some? && s.reqs[x].refs > 0
    && (s.reqs[x].scCmd.Some? ==> s.reqs[x].refs > 1)
  }

  lemma {:induction false} RrqCallback(s: State, x: nat, ev: Event, e: Env)
    requires Original(s, x)
    ensures RrqDone(s, Callback(s, Some(CbArg(Rrq, Some(x))), ev, e), x, x)
  {
    PutLetsGo(s.reqs[x]);
  }

  lemma {:induction false} SrrCallback(s: State, x: nat, ev: Event, e: Env)
    requires Original(s, x)
    ensures SrrDone(s, Callback(s, Some(CbArg(Srr, Some(x))), ev, e), x, x, ev, e)
  {
    var r := s.reqs[x].(flags := s.reqs[x].flags - {SrrSent});
    var r1 := SrrReturns(s.reqs[x], ev, e);
    AbortIff(Untimed(r), true, e);
    PutLetsGo(r);
    PutLetsGo(Untimed(r));
    if MayAbort(r, e) { PutAborting(Untimed(r), InitiateAbts(Untimed(r), true, e), true); }
    var s1 := Store(s, x, r1);
    assert Callback(s, Some(CbArg(Srr, Some(x))), ev, e) == Store(s1, x, Put(s1.reqs[x]));
    assert Rest(s, s1, {x});
    RestStore(s, s1, x, Put(r1), {x});
  }

  /** After what the callback did, the reference of the ELS is dropped. */
  lemma {:induction false} RecCallback(s: State, x: nat, ev: Event, e: Env) returns (n: nat)
    requires Original(s, x)
    ensures RecDone(s, Callback(s, Some(CbArg(Rec, Some(x))), ev, e), x, x, n, ev, e)
  {
    n := 0;
    if ev.EvElsTmo? {
      PutLetsGo(s.reqs[x]);
    } else {
      n := RecAnswer(s, x, e);
      var s1 := RecAnswered(s, x, e);
      var s' := Store(s1, x, Put(s1.reqs[x]));
      assert Callback(s, Some(CbArg(Rec, Some(x))), ev, e) == s';
      RecDropped(s, s1, s', x, n, ev, e);
    }
  }

  /** The answer to a REC, before the reference of the REC is dropped. */
  ghost predicate RecActed(s: State, s': State, x: nat, n: nat, e: Env)
    requires WellFormed(s) && x < NUM_TASKS && s.reqs[x].fcport.Some? && |s'.reqs| == |s.reqs|
  {
    var r, port := Untimed(s.reqs[x]), s.reqs[x].fcport.value;
    && s'.log == s.log
    && if e.reply.CommandLost? && r.scCmd.Some? && Roomy(s, port, e) then
      && n != x && NextFree(s, n) && Rest(s, s', {x, n}) && s'.scp == s.scp[r.scCmd.value := n]
      && (if e.postOk then Posted(s'.reqs[n], port, r.scCmd.value) else !s'.reqs[n].alloc)
      && (if e.postOk && MayAbort(r, e) then Aborting(Emptied(r), s'.reqs[x], false)
          else s'.reqs[x] == Emptied(r))
    else if e.reply.ResponseLost? && r.scCmd.Some? && e.memory && CanSend(s, port, e) then
      && n != x && Sent(s, s', n, port, CbArg(Srr, Some(x))) && Rest(s, s', {x, n}) && s'.scp == s.scp
      && s'.reqs[x] == r.(refs := r.refs + 1, flags := r.flags + {SrrSent})
    else
      && Rest(s, s', {x}) && s'.scp == s.scp
      && if e.reply.ResponseLost? && r.scCmd.Some? && MayAbort(r, e) then Aborting(r, s'.reqs[x], true)
         else s'.reqs[x] == r
  }

  lemma {:induction false} RecAnswer(s: State, x: nat, e: Env) returns (n: nat)
    requires Original(s, x)
    ensures RecActed(s, RecAnswered(s, x, e), x, n, e)
  {
    var r := Untimed(s.reqs[x]);
    var s1 := Store(s, x, r);
    StoreFreeSame(s, x, r);
    n := 0;
    if e.reply.CommandLost? {
      if r.scCmd.Some? {
        n := RequeueActs(s1, x, e);
        if Roomy(s, r.fcport.value, e) {
          NextAlike(s, s1, x, n);
          RestThrough(s, s1, Requeue(s1, x, e), x, n);
        }
      }
    } else if e.reply.ResponseLost? && r.scCmd.Some? {
      n := SrrSends(s1, x, e);
      SrrScp(s1, x, e);
      if e.memory && CanSend(s, r.fcport.value, e) {
        SentAlike(s, s1, SendSrr(s1, x, e), x, n, r.fcport.value, CbArg(Srr, Some(x)));
        RestThrough(s, s1, SendSrr(s1, x, e), x, n);
      } else {
        RestThrough(s, s1, SendSrr(s1, x, e), x, x);
      }
    }
  }

  lemma {:induction false} SrrScp(s: State, x: nat, e: Env)
    requires WellFormed(s) && x < NUM_TASKS
    ensures SendSrr(s, x, e).scp == s.scp && SendSrr(s, x, e).log == s.log
  {}

  lemma {:induction false} NextAlike(s: State, s0: State, x: nat, n: nat)
    requires WellFormed(s) && WellFormed(s0) && Swapped(s, s0, x) && NextFree(s0, n)
    ensures NextFree(s, n) && n != x
  {
    var d :| 0 <= d < NUM_TASKS && n == At(s0.idx, d) && !s0.reqs[n].alloc
             && forall k :: 0 <= k < d ==> s0.reqs[At(s0.idx, k)].alloc;
    forall k | 0 <= k < d ensures s.reqs[At(s.idx, k)].alloc { assert s0.reqs[At(s0.idx, k)].alloc; }
  }

  lemma {:induction false} RestThrough(s: State, s1: State, s': State, x: nat, n: nat)
    requires x < |s.reqs| && OnlyAt(s, s1, x) && Rest(s1, s', {x, n})
    ensures Rest(s, s', {x, n})
  {}

  lemma {:induction false} RecDropped(s: State, s1: State, s': State, x: nat, n: nat, ev: Event, e: Env)
    requires Original(s, x) && |s1.reqs| == |s.reqs| && RecActed(s, s1, x, n, e) && !ev.EvElsTmo?
    requires s' == Store(s1, x, Put(s1.reqs[x]))
    ensures RecDone(s, s', x, x, n, ev, e)
  {
    var r, port := Untimed(s.reqs[x]), s.reqs[x].fcport.value;
    PutLetsGo(s1.reqs[x]);
    if e.reply.CommandLost? && r.scCmd.Some? && Roomy(s, port, e) {
      RestStore(s, s1, x, Put(s1.reqs[x]), {x, n});
      if e.postOk && MayAbort(r, e) { PutAborting(Emptied(r), s1.reqs[x], false); }
    } else if e.reply.ResponseLost? && r.scCmd.Some? && e.memory && CanSend(s, port, e) {
      RestStore(s, s1, x, Put(s1.reqs[x]), {x, n});
    } else {
      RestStore(s, s1, x, Put(s1.reqs[x]), {x});
      if e.reply.ResponseLost? && r.scCmd.Some? && MayAbort(r, e) { PutAborting(r, s1.reqs[x], true); }
    }
  }

  // ---- Steps that end an ELS request

  /** Step `t` runs the callback of the ELS request `y` with event `ev`: a completion that is not dropped, a timeout or
      a flush of the whole target that has no cleanup to wait for, or either of them after its wait. */
  ghost predicate EndsEls(s: State, t: Step, y: nat, ev: Event)
    requires WellFormed(s) && Enabled(s, t) && y < NUM_TASKS
  {
    var r := s.reqs[y];
    match t
    case GoodCqe(x, e) =>
      && x == y && Arrives(r, e) && r.cmdType.Els? && !e.flushing && ev == r.event
      && ev !in {EvElsFlush, EvCleanupSuccess, EvCleanupFailed}
    case TimerFires(x, e) => x == y && r.fcport.Some? && r.cmdType.Els? && !(e.ready && e.room) && ev == EvElsTmo
    case ElsTmoResumes(x, _) => x == y && ev == EvElsTmo
    case FlushVisits(x, port, e) =>
      && x == y && r.alloc && r.fcport == Some(port) && r.cmdType.Els? && Outstanding in r.flags && e.wholeTarget
      && !(e.ready && e.room) && ev == EvElsFlush
    case FlushResumes(x, _) => x == y && r.flushWait.FlushEls? && ev == EvElsFlush
    case _ => false
  }

  /** The state in which the callback of `y` runs. */
  ghost predicate Calling(s: State, s1: State, y: nat) {
    && WellFormed(s) && WellFormed(s1) && Swapped(s, s1, y) && s1.scp == s.scp && s1.log == s.log
  }

  /** `s'` is `s2` apart from `y`. */
  ghost predicate Settled(s2: State, s': State, y: nat) { OnlyAt(s2, s', y) && s'.scp == s2.scp && s'.log == s2.log }

  lemma {:induction false} PoisedCalls(s: State, s0: State, y: nat, x: nat, op: ElsOp, r: IoReq, r': IoReq, e: Env)
    requires Inv(s) && y < NUM_TASKS && (s0 == s || s0 == s.(running := Some(y))) && Poised(s0, y, r, r', e)
    requires s.reqs[y].cb == Some(CbArg(op, Some(x))) && !op.Adisc? && ElsWaiting(s.reqs[y])
    ensures var s1 := Store(s0, y, r);
            && Calling(s, s1, y) && x != y && Original(s1, x)
            && Settled(Callback(s1, Some(CbArg(op, Some(x))), r.event, e), Ended(s0, y, r, r', e), y)
  {
    OriginalOf(Store(s0, y, r), y, x);
  }

  lemma {:induction false} OriginalOf(s: State, y: nat, x: nat)
    requires Sound(s) && y < NUM_TASKS && Target(s.reqs[y]) == Some(x)
    ensures x != y && Original(s, x)
  {
    Targeted(s, y, x);
    ReqAt(s, x);
  }

  /** Every such step runs the callback in a state that differs from the present one in `y` only, and then changes
      nothing but `y`. */
  lemma {:induction false} EndsAs(s: State, t: Step, y: nat, ev: Event, x: nat, op: ElsOp) returns (s1: State)
    requires Inv(s) && Enabled(s, t) && !Hazard(s, t) && y < NUM_TASKS && EndsEls(s, t, y, ev)
    requires s.reqs[y].cb == Some(CbArg(op, Some(x))) && !op.Adisc?
    ensures Calling(s, s1, y) && x != y && Original(s1, x)
    ensures Settled(Callback(s1, Some(CbArg(op, Some(x))), ev, t.e), Apply(s, t), y)
  {
    ReqAt(s, y);
    if t.ElsTmoResumes? || t.FlushResumes? {
      s1 := EndsLate(s, t, y, ev, x, op);
    } else {
      s1 := EndsAtOnce(s, t, y, ev, x, op);
    }
  }

  lemma {:induction false} EndsLate(s: State, t: Step, y: nat, ev: Event, x: nat, op: ElsOp) returns (s1: State)
    requires Inv(s) && (t.ElsTmoResumes? || t.FlushResumes?) && Enabled(s, t) && y < NUM_TASKS && EndsEls(s, t, y, ev)
    requires s.reqs[y].cb == Some(CbArg(op, Some(x))) && !op.Adisc? && ReqOk(s.reqs[y], Incoming(s, y))
    ensures Calling(s, s1, y) && x != y && Original(s1, x)
    ensures Settled(Callback(s1, Some(CbArg(op, Some(x))), ev, t.e), Apply(s, t), y)
  {
    if t.ElsTmoResumes? {
      s1 := LateTimeoutCalls(s, y, x, op, t.e);
    } else {
      s1 := LateFlushCalls(s, y, x, op, t.e);
    }
  }

  lemma {:induction false} EndsAtOnce(s: State, t: Step, y: nat, ev: Event, x: nat, op: ElsOp) returns (s1: State)
    requires Inv(s) && (t.GoodCqe? || t.TimerFires? || t.FlushVisits?) && Enabled(s, t) && !Hazard(s, t)
    requires y < NUM_TASKS && EndsEls(s, t, y, ev)
    requires s.reqs[y].cb == Some(CbArg(op, Some(x))) && !op.Adisc? && ReqOk(s.reqs[y], Incoming(s, y))
    ensures Calling(s, s1, y) && x != y && Original(s1, x)
    ensures Settled(Callback(s1, Some(CbArg(op, Some(x))), ev, t.e), Apply(s, t), y)
  {
    if t.GoodCqe? {
      s1 := CompletionCalls(s, y, x, op, t.e);
    } else if t.TimerFires? {
      s1 := TimeoutCalls(s, y, x, op, t.e);
    } else {
      s1 := FlushCalls(s, y, x, op, t.e);
    }
  }

  lemma {:induction false} CompletionCalls(s: State, y: nat, x: nat, op: ElsOp, e: Env) returns (s1: State)
    requires Inv(s) && y < NUM_TASKS && s.reqs[y].alloc && s.reqs[y].cmdType.Els? && !e.flushing
    requires s.reqs[y].event !in {EvElsFlush, EvCleanupSuccess, EvCleanupFailed}
    requires !(op.Rrq? && s.reqs[y].event.EvElsTmo?)
    requires s.reqs[y].cb == Some(CbArg(op, Some(x))) && !op.Adisc?
    ensures Calling(s, s1, y) && x != y && Original(s1, x)
    ensures Settled(Callback(s1, Some(CbArg(op, Some(x))), s.reqs[y].event, e), ElsCompl(s, y, e), y)
  {
    var r := Quiesce(s.reqs[y]);
    CompletionPoised(s, y, e);
    s1 := Store(s, y, r);
    PoisedCalls(s, s, y, x, op, r, ElsDrop(r), e);
  }

  lemma {:induction false} LateTimeoutCalls(s: State, y: nat, x: nat, op: ElsOp, e: Env) returns (s1: State)
    requires Inv(s) && y < NUM_TASKS && ElsTmoWait in s.reqs[y].marks && ElsWaiting(s.reqs[y])
    requires s.reqs[y].cb == Some(CbArg(op, Some(x))) && !op.Adisc?
    ensures Calling(s, s1, y) && x != y && Original(s1, x)
    ensures Settled(Callback(s1, Some(CbArg(op, Some(x))), EvElsTmo, e), ElsTmoResumed(s, y, e), y)
  {
    var r := WithEvent(CleanupEnd(s.reqs[y], false, e).req, EvElsTmo);
    LateTimeoutPoised(s, y, e);
    s1 := Store(s, y, r);
    PoisedCalls(s, s, y, x, op, r, ElsTmoDrop(r), e);
  }

  lemma {:induction false} LateFlushCalls(s: State, y: nat, x: nat, op: ElsOp, e: Env) returns (s1: State)
    requires Inv(s) && y < NUM_TASKS && s.reqs[y].flushWait.FlushEls? && ElsWaiting(s.reqs[y])
    requires s.reqs[y].cb == Some(CbArg(op, Some(x))) && !op.Adisc?
    ensures Calling(s, s1, y) && x != y && Original(s1, x)
    ensures Settled(Callback(s1, Some(CbArg(op, Some(x))), EvElsFlush, e), FlushElsResumed(s, y, e), y)
  {
    var r := WithEvent(Quiesce(CleanupEnd(s.reqs[y], false, e).req), EvElsFlush);
    LateFlushPoised(s, y, e);
    s1 := Store(s, y, r);
    PoisedCalls(s, s, y, x, op, r, ElsFlushDrop(r), e);
  }

  lemma {:induction false} TimeoutCalls(s: State, y: nat, x: nat, op: ElsOp, e: Env) returns (s1: State)
    requires Inv(s) && y < NUM_TASKS && s.reqs[y].alloc && s.reqs[y].cmdType.Els? && !(e.ready && e.room)
    requires s.reqs[y].cb == Some(CbArg(op, Some(x))) && !op.Adisc?
    ensures Calling(s, s1, y) && x != y && Original(s1, x)
    ensures Settled(Callback(s1, Some(CbArg(op, Some(x))), EvElsTmo, e), ElsTimeout(s, y, e), y)
  {
    var s0, r1 := s.(running := Some(y)), WithEvent(CleanupBegin(Quiesce(Get(s.reqs[y])), true, e), EvElsTmo);
    TimeoutPoised(s, y, e);
    s1 := Store(s0, y, r1);
    PoisedCalls(s, s0, y, x, op, r1, ElsTmoDrop(r1), e);
  }

  lemma {:induction false} FlushCalls(s: State, y: nat, x: nat, op: ElsOp, e: Env) returns (s1: State)
    requires Inv(s) && y < NUM_TASKS && s.reqs[y].alloc && s.reqs[y].cmdType.Els? && !(e.ready && e.room)
    requires s.reqs[y].cb == Some(CbArg(op, Some(x))) && !op.Adisc?
    ensures Calling(s, s1, y) && x != y && Original(s1, x)
    ensures Settled(Callback(s1, Some(CbArg(op, Some(x))), EvElsFlush, e), FlushElsVisit(s, y, e), y)
  {
    var s0, r1 := s.(running := Some(y)), WithEvent(Quiesce(CleanupBegin(Get(s.reqs[y]), false, e)), EvElsFlush);
    FlushPoised(s, y, e);
    s1 := Store(s0, y, r1);
    PoisedCalls(s, s0, y, x, op, r1, ElsFlushDrop(r1), e);
  }

  lemma {:induction false} RestAround(s: State, s1: State, s2: State, s': State, y: nat, touched: set<nat>)
    requires Calling(s, s1, y) && Rest(s1, s2, touched) && Settled(s2, s', y)
    ensures Rest(s, s', touched + {y})
  {}

  /** The end of an RRQ lets the aborted exchange go. */
  lemma {:induction false} RrqActs(s: State, t: Step, y: nat, ev: Event, x: nat)
    requires Inv(s) && Enabled(s, t) && !Hazard(s, t) && y < NUM_TASKS && EndsEls(s, t, y, ev)
    requires s.reqs[y].cb == Some(CbArg(Rrq, Some(x)))
    ensures x < NUM_TASKS && RrqDone(s, Apply(s, t), x, y)
  {
    var s1 := EndsAs(s, t, y, ev, x, Rrq);
    var s2 := Callback(s1, Some(CbArg(Rrq, Some(x))), ev, t.e);
    RrqCallback(s1, x, ev, t.e);
    RestAround(s, s1, s2, Apply(s, t), y, {x, x});
    assert {x, x} + {y} == {x, y};
  }

  /** The end of an SRR: which answer aborts the exchange, and which leaves it to complete. */
  lemma {:induction false} SrrActs(s: State, t: Step, y: nat, ev: Event, x: nat)
    requires Inv(s) && Enabled(s, t) && !Hazard(s, t) && y < NUM_TASKS && EndsEls(s, t, y, ev)
    requires s.reqs[y].cb == Some(CbArg(Srr, Some(x)))
    ensures x < NUM_TASKS && SrrDone(s, Apply(s, t), x, y, ev, t.e)
  {
    var s1 := EndsAs(s, t, y, ev, x, Srr);
    var s2 := Callback(s1, Some(CbArg(Srr, Some(x))), ev, t.e);
    SrrCallback(s1, x, ev, t.e);
    RestAround(s, s1, s2, Apply(s, t), y, {x, x});
    assert {x, x} + {y} == {x, y};
  }

  /** The end of a REC: what each answer does. */
  lemma {:induction false} RecEnds(s: State, t: Step, y: nat, ev: Event, x: nat) returns (n: nat)
    requires Inv(s) && Enabled(s, t) && !Hazard(s, t) && y < NUM_TASKS && EndsEls(s, t, y, ev)
    requires s.reqs[y].cb == Some(CbArg(Rec, Some(x)))
    ensures x < NUM_TASKS && s.reqs[x].fcport.Some? && RecDone(s, Apply(s, t), x, y, n, ev, t.e)
  {
    var s1 := EndsAs(s, t, y, ev, x, Rec);
    var s2 := Callback(s1, Some(CbArg(Rec, Some(x))), ev, t.e);
    n := RecCallback(s1, x, ev, t.e);
    RecAround(s, s1, s2, Apply(s, t), x, y, n, ev, t.e);
  }

  lemma {:induction false} RecAround(s: State, s1: State, s2: State, s': State, x: nat, y: nat, n: nat, ev: Event,
                                     e: Env)
    requires Calling(s, s1, y) && x != y && Original(s1, x) && |s2.reqs| == |s1.reqs| && Settled(s2, s', y)
    requires RecDone(s1, s2, x, x, n, ev, e)
    ensures x < NUM_TASKS && s.reqs[x].fcport.Some? && RecDone(s, s', x, y, n, ev, e)
  {
    var r, port := Untimed(s.reqs[x]), s.reqs[x].fcport.value;
    assert {x, x} + {y} == {x, y} && {x, x, n} + {y} == {x, y, n};
    if !ev.EvElsTmo? && e.reply.CommandLost? && r.scCmd.Some? && Roomy(s, port, e) {
      RestAround(s, s1, s2, s', y, {x, x, n});
      NextAlike(s, s1, y, n);
    } else if !ev.EvElsTmo? && e.reply.ResponseLost? && r.scCmd.Some? && e.memory && CanSend(s, port, e) {
      RestAround(s, s1, s2, s', y, {x, x, n});
      NextAlike(s, s1, y, n);
    } else {
      RestAround(s, s1, s2, s', y, {x, x});
    }
  }

  // ---- ELS requests that do not end yet

  /** A completion that is dropped changes nothing. */
  lemma {:induction false} ElsDropped(s: State, y: nat, e: Env)
    requires WellFormed(s) && y < NUM_TASKS && s.reqs[y].cmdType.Els?
    requires !Arrives(s.reqs[y], e) || e.flushing || s.reqs[y].event in {EvElsFlush, EvCleanupSuccess, EvCleanupFailed}
    ensures Apply(s, GoodCqe(y, e)) == s
  {}

  /** The timeout of an ELS waits for its cleanup if that can be sent. */
  lemma {:induction false} ElsTimerWaits(s: State, y: nat, e: Env)
    requires WellFormed(s) && Enabled(s, TimerFires(y, e)) && s.reqs[y].fcport.Some? && s.reqs[y].cmdType.Els?
    requires e.ready && e.room
    ensures var s', r := Apply(s, TimerFires(y, e)), s.reqs[y];
            && OnlyAt(s, s', y) && ElsTmoWait in s'.reqs[y].marks && s'.reqs[y].cmdType.Cleanup?
            && s'.reqs[y].refs == r.refs + 1 && s'.reqs[y].flags == r.flags - {Outstanding}
            && s'.reqs[y].pending == r.pending - {TimeoutWork} && s'.reqs[y].cb == r.cb
  {}

  /** If the session is up but the send queue is full, the timeout ends at once and leaves no cleanup mark. An RRQ is
      free then; any other ELS waits for its completion. */
  lemma {:induction false} ElsTimerEnds(s: State, y: nat, e: Env)
    requires Inv(s) && Enabled(s, TimerFires(y, e)) && s.reqs[y].fcport.Some? && s.reqs[y].cmdType.Els?
    requires e.ready && !e.room
    ensures var r' := Apply(s, TimerFires(y, e)).reqs[y];
            && InCleanup !in r'.flags && Outstanding !in r'.flags && r'.cb.None? && r'.event == EvElsTmo
            && TimeoutWork !in r'.pending && (r'.alloc <==> !IsRrq(s.reqs[y]))
  {
    ReqAt(s, y);
    ElsReqOk(s, y);
    TimeoutPoised(s, y, e);
    TimedOutFields(s.reqs[y], e);
  }

  lemma {:induction false} TimedOutFields(r: IoReq, e: Env)
    requires ReqOk(r, 0) && r.alloc && r.cmdType.Els? && e.ready && !e.room
    ensures var r' := ElsTmoDrop(WithEvent(CleanupBegin(Quiesce(Get(r)), true, e), EvElsTmo));
            && InCleanup !in r'.flags && Outstanding !in r'.flags && r'.cb.None? && r'.event == EvElsTmo
            && TimeoutWork !in r'.pending && (r'.alloc <==> !IsRrq(r))
  {}

  /** The flush of the whole target does so too, and leaves the timer alone; any other flush passes an ELS. */
  lemma {:induction false} FlushElsWaits(s: State, y: nat, port: nat, e: Env)
    requires Inv(s) && Enabled(s, FlushVisits(y, port, e)) && s.reqs[y].alloc && s.reqs[y].fcport == Some(port)
    requires Outstanding in s.reqs[y].flags && s.reqs[y].cmdType.Els?
    ensures var s', r := Apply(s, FlushVisits(y, port, e)), s.reqs[y];
            && (!e.wholeTarget ==> s' == s)
            && (e.wholeTarget && e.ready && e.room ==>
                  && OnlyAt(s, s', y) && s'.reqs[y].flushWait.FlushEls? && s'.reqs[y].cmdType.Cleanup?
                  && s'.reqs[y].refs == r.refs + 1 && s'.reqs[y].flags == r.flags && s'.reqs[y].pending == r.pending
                  && s'.reqs[y].cb == r.cb)
  {
    ReqAt(s, y);
    Unchanged(s, y);
  }

  /** A completed or flushed ELS request is free again. */
  lemma {:induction false} ElsFreed(s: State, t: Step, y: nat, ev: Event)
    requires Inv(s) && Enabled(s, t) && !Hazard(s, t) && y < NUM_TASKS && EndsEls(s, t, y, ev)
    requires t.GoodCqe? || t.FlushVisits?
    ensures !Apply(s, t).reqs[y].alloc
  {
    ReqAt(s, y);
    ElsReqOk(s, y);
    if t.GoodCqe? { CompletionFrees(s, y, t.e); } else { FlushFrees(s, y, t.e); }
  }

  lemma {:induction false} CompletionFrees(s: State, y: nat, e: Env)
    requires Inv(s) && y < NUM_TASKS && s.reqs[y].alloc && s.reqs[y].cmdType.Els? && ReqOk(s.reqs[y], 0)
    requires !ElsComplIgnored(s.reqs[y], e) && !(IsRrq(s.reqs[y]) && s.reqs[y].event.EvElsTmo?)
    ensures !ElsCompl(s, y, e).reqs[y].alloc
  {
    var r := Quiesce(s.reqs[y]);
    CompletionPoised(s, y, e);
    assert r.refs == 1 && !ElsDrop(r).alloc;
  }

  lemma {:induction false} FlushFrees(s: State, y: nat, e: Env)
    requires Inv(s) && y < NUM_TASKS && s.reqs[y].alloc && s.reqs[y].cmdType.Els? && ReqOk(s.reqs[y], 0)
    requires !CleanupWaits(Get(s.reqs[y]), e)
    ensures !FlushElsVisit(s, y, e).reqs[y].alloc
  {
    var r := WithEvent(Quiesce(CleanupBegin(Get(s.reqs[y]), false, e)), EvElsFlush);
    FlushPoised(s, y, e);
    assert r.refs == 2 && !ElsFlushDrop(r).alloc;
  }

  // ---- The RRQ goes out

  function RrqStarted(r: IoReq): (r': IoReq) { r.(pending := r.pending - {RrqWork}, state := RrqActive) }

  /** qedf_send_rrq: without a session or with other holders the reference is kept for ever; otherwise the RRQ goes out,
      or the request is released. */
  lemma {:induction false} RrqRunsActs(s: State, x: nat, e: Env) returns (n: nat)
    requires Inv(s) && Enabled(s, RrqRuns(x, e))
    ensures s.reqs[x].fcport.Some?
    ensures var s', r := Apply(s, RrqRuns(x, e)), s.reqs[x];
            if !e.ready || r.refs != 1
            then Rest(s, s', {x}) && s'.reqs[x] == RrqStarted(r).(abandoned := r.abandoned + 1)
            else if e.memory && CanSend(s, r.fcport.value, e)
            then && n != x && Sent(s, s', n, r.fcport.value, CbArg(Rrq, Some(x))) && Rest(s, s', {x, n})
                 && s'.reqs[x] == RrqStarted(r)
            else Rest(s, s', {x}) && !s'.reqs[x].alloc
  {
    var r := s.reqs[x];
    ReqAt(s, x);
    n := 0;
    if e.ready && r.refs == 1 && e.memory { n := RrqSends(s, x, e); }
  }

  lemma {:induction false} RrqSends(s: State, x: nat, e: Env) returns (n: nat)
    requires WellFormed(s) && FreeOk(s) && x < NUM_TASKS && s.reqs[x].alloc && s.reqs[x].fcport.Some?
    requires e.ready && e.memory && s.reqs[x].refs == 1
    ensures var s', r := SendRrq(s, x, e), s.reqs[x];
            if CanSend(s, r.fcport.value, e)
            then && n != x && Sent(s, s', n, r.fcport.value, CbArg(Rrq, Some(x))) && Rest(s, s', {x, n})
                 && s'.reqs[x] == RrqStarted(r)
            else Rest(s, s', {x}) && !s'.reqs[x].alloc
  {
    var r := RrqStarted(s.reqs[x]);
    var s0, port := Store(s, x, r), s.reqs[x].fcport.value;
    var s1 := InitiateEls(s0, port, CbArg(Rrq, Some(x)), e);
    StoreFreeSame(s, x, r);
    n := SendsIff(s0, port, CbArg(Rrq, Some(x)), e);
    if CanSend(s, port, e) {
      SentAlike(s, s0, s1, x, n, port, CbArg(Rrq, Some(x)));
    } else {
      RestThrough(s, s0, s1, x, x);
      RestStore(s, s1, x, Put(s1.reqs[x]), {x, x});
      assert {x, x} == {x};
    }
  }
}
