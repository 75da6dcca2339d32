/** Which commands are given back, and how: true of every run, hazards or not. Reference counts play no
    part here. */
module Ledger {
  import opened Requests
  import opened Exchange
  import opened Holders
  import opened Counting
  import opened ExchangeInvariant
  import opened ExchangeSteps

  // ---- One request

  /** Within one life a request stays allocated, never becomes a SCSI request again and gets no other
      command. Once it is no longer outstanding it stays so, and no abort begins on it. */
  ghost predicate Ages(r: IoReq, r': IoReq) {
    && r'.life >= r.life
    && (r'.life == r.life && r.alloc ==>
          && r'.alloc && (r'.cmdType.ScsiCmd? ==> r.cmdType.ScsiCmd?) && (r'.scCmd == r.scCmd || r'.scCmd.None?)
          && (Outstanding !in r.flags ==> Outstanding !in r'.flags && Unaborted(r, r')))
  }

  ghost predicate Unaborted(r: IoReq, r': IoReq) {
    (InAbort in r'.flags ==> InAbort in r.flags) && (r'.cmdType.Abts? ==> r.cmdType.Abts?)
  }

  /** It gets no command, and a command that it has does not get back to a SCSI-type request. */
  ghost predicate Shy(r: IoReq, r': IoReq) {
    r'.scCmd.Some? ==> r'.scCmd == r.scCmd && (r'.cmdType.ScsiCmd? ==> r.cmdType.ScsiCmd?)
  }

  ghost predicate Tame(r: IoReq, r': IoReq) { Ages(r, r') && Shy(r, r') }

  ghost predicate TameOutcome(r: IoReq, o: Outcome) { Ages(r, o.req) && Shy(r, o.req) && GivesUp(r, o) }

  lemma {:induction false} TameTransitive(r: IoReq, r1: IoReq, r2: IoReq)
    requires Tame(r, r1) && Tame(r1, r2)
    ensures Tame(r, r2)
  {}

  lemma {:induction false} TameThen(r: IoReq, r1: IoReq, o: Outcome, r2: IoReq)
    requires Tame(r, r1) && r1.scCmd == r.scCmd && TameOutcome(r1, o) && Tame(o.req, r2)
    ensures TameOutcome(r, Outcome(r2, o.done))
  {}

  lemma {:induction false} TamePut(r: IoReq)
    ensures Tame(r, Put(r))
  {}

  lemma {:induction false} TameStarts(r: IoReq, returnCmd: bool, e: Env)
    ensures Tame(r, InitiateAbts(r, returnCmd, e)) && Tame(r, CleanupBegin(r, returnCmd, e))
  {}

  lemma {:induction false} TameCompletion(r: IoReq, token: bool, e: Env)
    ensures TameOutcome(r, ScsiCompletion(r, token, e))
  {}

  lemma {:induction false} TameDone(r: IoReq, token: bool, e: Env)
    ensures TameOutcome(r, ScsiDone(r, token, e))
  {}

  lemma {:induction false} TameAbtsCompl(r: IoReq, reply: AbtsReply, token: bool, e: Env)
    ensures TameOutcome(r, AbtsCompl(r, reply, token, e))
  {
    TameReply(r, reply);
    TameGivesBack(AbtsReplied(AbtsIn(r), reply), token, e);
  }

  lemma {:induction false} TameReply(r: IoReq, reply: AbtsReply)
    ensures var r1 := AbtsReplied(AbtsIn(r), reply); Tame(r, r1) && r1.scCmd == r.scCmd
  {}

  lemma {:induction false} TameGivesBack(r: IoReq, token: bool, e: Env)
    ensures TameOutcome(r, AbtsGivesBack(r, token, e))
  {
    var o := ScsiDoneIf(r, r.scCmd.Some? && r.returnOnAbts, token, e);
    TameDone(r, token, e);
    TamePut(o.req);
    TameThen(r, r, o, Put(o.req));
  }

  lemma {:induction false} TameAbtsTimeout(r: IoReq, e: Env)
    ensures Tame(r, AbtsTimeout(r, e))
  {}

  lemma {:induction false} TameAbtsTimeoutEnd(r: IoReq, token: bool, e: Env)
    ensures TameOutcome(r, AbtsTimeoutEnd(r, token, e))
  {
    var o := CleanupEnd(r, token, e);
    TameCleanupEnd(r, token, e);
    TameTmoLeaves(o.req, e);
    TameThen(r, r, o, AbtsTmoLeaves(Cleaned(o.req, e)));
  }

  lemma {:induction false} TameTmoLeaves(r: IoReq, e: Env)
    ensures Tame(r, AbtsTmoLeaves(Cleaned(r, e)))
  {}

  lemma {:induction false} TameCleanupEnd(r: IoReq, token: bool, e: Env)
    ensures TameOutcome(r, CleanupEnd(r, token, e))
  {}

  lemma {:induction false} TameFlushHeld(r: IoReq, e: Env)
    ensures Tame(r, FlushAbtsHeld(r, e))
  {}

  lemma {:induction false} TameFlushTakes(r: IoReq)
    ensures Tame(r, CancelRrq(Get(r)))
  {}

  lemma {:induction false} TameFlushAbts(r: IoReq, e: Env)
    ensures Tame(r, FlushAbtsVisit(r, e))
  {
    TameFlushTakes(r);
    TameFlushHeld(CancelRrq(Get(r)), e);
    TameTransitive(r, CancelRrq(Get(r)), FlushAbtsHeld(CancelRrq(Get(r)), e));
  }

  lemma {:induction false} TameNotOutstanding(r: IoReq)
    ensures Tame(r, FlushNotOutstanding(r))
  {}

  lemma {:induction false} TameFlushScsi(r: IoReq, token: bool, e: Env)
    ensures TameOutcome(r, FlushScsiVisit(r, token, e))
  {
    TameFlushCleanup(r, true, FlushScsi, e);
    TameFlushCleanup(Unbind(r), false, FlushNullDevice, e);
    TameFlushCleanup(Get(r), true, FlushScsi, e);
    TameGivenBack(Get(r), token, e);
  }

  lemma {:induction false} TameFlushCleanup(r: IoReq, returnCmd: bool, w: FlushWait, e: Env)
    ensures TameOutcome(r, FlushCleanup(r, returnCmd, w, e))
  {}

  lemma {:induction false} TameGivenBack(r: IoReq, token: bool, e: Env)
    ensures var o := ScsiDone(r, token, e); TameOutcome(r, Outcome(Put(o.req), o.done))
  {
    TameDone(r, token, e);
    TamePut(ScsiDone(r, token, e).req);
    TameThen(r, r, ScsiDone(r, token, e), Put(ScsiDone(r, token, e).req));
  }

  lemma {:induction false} TameFlushLeaves(r: IoReq, e: Env)
    ensures Tame(r, FlushLeaves(FlushCleaned(r, e)))
  {}

  lemma {:induction false} TameFlushEnd(r: IoReq, token: bool, e: Env)
    ensures TameOutcome(r, FlushScsiEnd(r, token, e))
  {
    var o := CleanupEnd(r, token, e);
    TameCleanupEnd(r, token, e);
    TameFlushLeaves(o.req, e);
    TameThen(r, r, o, FlushLeaves(FlushCleaned(o.req, e)));
  }

  lemma {:induction false} TameEhAbort(r: IoReq, token: bool, e: Env)
    ensures TameOutcome(r, EhAbort(r, token, e))
  {}

  lemma {:induction false} TameElsDrop(r: IoReq)
    ensures Tame(r, ElsDrop(r)) && Tame(r, ElsTmoDrop(r))
  {}

  lemma {:induction false} TameElsFlushDrop(r: IoReq)
    ensures Tame(r, ElsFlushDrop(r))
  {}

  lemma {:induction false} TameSrrReturns(r: IoReq, ev: Event, e: Env)
    ensures Tame(r, SrrReturns(r, ev, e))
  {}

  lemma {:induction false} TameFresh(r: IoReq, port: nat, cb: CbArg)
    requires !r.alloc
    ensures Tame(r, ElsPosted(ElsFresh(r, port, cb))) && Tame(r, Put(ElsFresh(r, port, cb)))
  {}

  // ---- The pool

  /** Every request that has a command is named by its SCp.ptr, and no command is given back more often
      than it was accepted. */
  ghost predicate BooksOk(s: State) { ScpOk(s) && LogOk(s) }

  ghost predicate AllAge(s: State, s': State) {
    |s'.reqs| == |s.reqs| && forall i :: 0 <= i < |s.reqs| ==> Ages(s.reqs[i], s'.reqs[i])
  }

  /** No request gets a command, except one of `gained`. */
  ghost predicate AllShy(s: State, s': State, gained: set<nat>) {
    && |s'.reqs| == |s.reqs|
    && forall i :: 0 <= i < |s.reqs| ==>
         Shy(s.reqs[i], s'.reqs[i]) || (s'.reqs[i].scCmd.Some? && s'.reqs[i].scCmd.value in gained)
  }

  /** Nothing is given back, and the books stay in order. */
  ghost predicate SilentBut(s: State, s': State, gained: set<nat>) {
    AllAge(s, s') && AllShy(s, s', gained) && s'.log == s.log && (BooksOk(s) ==> BooksOk(s'))
  }

  ghost predicate Silent(s: State, s': State) { SilentBut(s, s', {}) }

  lemma {:induction false} ShyTransitive(s: State, s1: State, s2: State, gained: set<nat>)
    requires AllShy(s, s1, gained) && AllShy(s1, s2, gained)
    ensures AllShy(s, s2, gained)
  {
    forall i | 0 <= i < |s.reqs|
      ensures Shy(s.reqs[i], s2.reqs[i]) || (s2.reqs[i].scCmd.Some? && s2.reqs[i].scCmd.value in gained)
    {
      assert Shy(s.reqs[i], s1.reqs[i]) || (s1.reqs[i].scCmd.Some? && s1.reqs[i].scCmd.value in gained);
      assert Shy(s1.reqs[i], s2.reqs[i]) || (s2.reqs[i].scCmd.Some? && s2.reqs[i].scCmd.value in gained);
    }
  }

  lemma {:induction false} SilentButTransitive(s: State, s1: State, s2: State, gained: set<nat>)
    requires SilentBut(s, s1, gained) && SilentBut(s1, s2, gained)
    ensures SilentBut(s, s2, gained)
  {
    AgeTransitive(s, s1, s2);
    ShyTransitive(s, s1, s2, gained);
  }

  lemma {:induction false} SilentTransitive(s: State, s1: State, s2: State)
    requires Silent(s, s1) && Silent(s1, s2)
    ensures Silent(s, s2)
  {
    SilentButTransitive(s, s1, s2, {});
  }

  lemma {:induction false} SilentAnyway(s: State, s': State, gained: set<nat>)
    requires Silent(s, s')
    ensures SilentBut(s, s', gained)
  {}

  lemma {:induction false} SilentChange(s: State, s': State, x: nat, r: IoReq)
    requires x < |s.reqs| && Tame(s.reqs[x], r) && s'.reqs == s.reqs[x := r] && s'.scp == s.scp && s'.log == s.log
    ensures Silent(s, s')
  {
    if BooksOk(s) {
      forall c: nat ensures Count(s'.log, GivesBack(c)) + One(Holds(s', c)) <= Count(s'.log, Accepts(c)) {
        assert Count(s.log, GivesBack(c)) + One(Holds(s, c)) <= Count(s.log, Accepts(c));
      }
    }
  }

  lemma {:induction false} SilentStore(s: State, x: nat, r: IoReq)
    requires x < |s.reqs| && Tame(s.reqs[x], r)
    ensures Silent(s, Store(s, x, r)) && Silent(s, Settle(s, x, r))
  {
    SilentChange(s, Store(s, x, r), x, r);
    SilentChange(s, Settle(s, x, r), x, r);
  }

  lemma {:induction false} SilentEls(s: State, port: nat, cb: CbArg, e: Env)
    requires WellFormed(s)
    ensures Silent(s, InitiateEls(s, port, cb, e))
  {
    var n := FreeSlot(s, port, e);
    if e.elsReady && e.ready && n.Some? {
      var r := ElsFresh(s.reqs[n.value], port, cb);
      TameFresh(s.reqs[n.value], port, cb);
      SilentChange(s, InitiateEls(s, port, cb, e), n.value, if e.mpOk then ElsPosted(r) else Put(r));
    }
  }

  lemma {:induction false} SilentAbort(s: State, x: nat, returnCmd: bool, e: Env)
    requires x < |s.reqs|
    ensures Silent(s, Store(s, x, InitiateAbts(s.reqs[x], returnCmd, e)))
  {
    TameStarts(s.reqs[x], returnCmd, e);
    SilentStore(s, x, InitiateAbts(s.reqs[x], returnCmd, e));
  }

  lemma {:induction false} TameSrr(r: IoReq, e: Env)
    ensures Tame(r, SrrBegin(r)) && Tame(r, Put(InitiateAbts(r, true, e))) && Tame(r, InitiateAbts(Put(r), true, e))
  {
    TameStarts(r, true, e);
    TamePut(InitiateAbts(r, true, e));
    TameTransitive(r, InitiateAbts(r, true, e), Put(InitiateAbts(r, true, e)));
    TamePut(r);
    TameStarts(Put(r), true, e);
    TameTransitive(r, Put(r), InitiateAbts(Put(r), true, e));
  }

  lemma {:induction false} TameGet(r: IoReq)
    ensures Tame(r, Get(r))
  {}

  /** `x` gets a reference, and the ELS is sent if there is memory for it. */
  lemma {:induction false} SilentSend(s: State, x: nat, port: nat, op: ElsOp, e: Env)
    requires WellFormed(s) && x < NUM_TASKS
    ensures var s0 := Store(s, x, Get(s.reqs[x]));
            Silent(s, if e.memory then InitiateEls(s0, port, CbArg(op, Some(x)), e) else s0)
  {
    var s0 := Store(s, x, Get(s.reqs[x]));
    TameGet(s.reqs[x]);
    SilentStore(s, x, Get(s.reqs[x]));
    SilentEls(s0, port, CbArg(op, Some(x)), e);
    SilentTransitive(s, s0, InitiateEls(s0, port, CbArg(op, Some(x)), e));
  }

  lemma {:induction false} SilentThen(s: State, s1: State, x: nat, r: IoReq)
    requires Silent(s, s1) && x < |s1.reqs| && Tame(s1.reqs[x], r)
    ensures Silent(s, Store(s1, x, r))
  {
    SilentStore(s1, x, r);
    SilentTransitive(s, s1, Store(s1, x, r));
  }

  lemma {:induction false} SilentSrr(s: State, x: nat, e: Env)
    requires WellFormed(s) && x < NUM_TASKS
    ensures Silent(s, SendSrr(s, x, e))
  {
    var port := s.reqs[x].fcport;
    if port.Some? && e.ready {
      var s0 := Store(s, x, Get(s.reqs[x]));
      var s1 := if e.memory then InitiateEls(s0, port.value, CbArg(Srr, Some(x)), e) else s0;
      SilentSend(s, x, port.value, Srr, e);
      TameSrr(s1.reqs[x], e);
      if e.memory && ElsStarts(s0, port.value, e) {
        SilentThen(s, s1, x, SrrBegin(s1.reqs[x]));
      } else {
        SilentThen(s, s1, x, Put(InitiateAbts(s1.reqs[x], true, e)));
      }
    }
  }

  lemma {:induction false} SilentRec(s: State, x: nat, e: Env)
    requires WellFormed(s) && x < NUM_TASKS
    ensures Silent(s, SendRec(s, x, e))
  {
    var port := s.reqs[x].fcport;
    if port.None? || !e.ready {
      SilentAbort(s, x, true, e);
    } else {
      var s0 := Store(s, x, Get(s.reqs[x]));
      var s1 := if e.memory then InitiateEls(s0, port.value, CbArg(Rec, Some(x)), e) else s0;
      SilentSend(s, x, port.value, Rec, e);
      TameSrr(s1.reqs[x], e);
      SilentThen(s, s1, x, InitiateAbts(Put(s1.reqs[x]), true, e));
    }
  }

  lemma {:induction false} TameRrq(r: IoReq)
    ensures Tame(r, RrqBegin(r)) && Tame(r, Put(RrqBegin(r))) && Tame(r, Abandon(RrqBegin(r)))
  {}

  lemma {:induction false} SilentRrq(s: State, x: nat, e: Env)
    requires WellFormed(s) && x < NUM_TASKS
    ensures Silent(s, SendRrq(s, x, e))
  {
    var r := RrqBegin(s.reqs[x]);
    TameRrq(s.reqs[x]);
    if r.fcport.None? {
      SilentStore(s, x, Put(r));
    } else if !e.ready || r.refs != 1 {
      SilentStore(s, x, Abandon(r));
    } else if !e.memory {
      SilentStore(s, x, Put(r));
    } else {
      SilentStore(s, x, r);
      var s0 := Store(s, x, r);
      RrqSentSilently(s0, x, r.fcport.value, e);
      SilentTransitive(s, s0, SendRrq(s, x, e));
    }
  }

  lemma {:induction false} RrqSentSilently(s0: State, x: nat, port: nat, e: Env)
    requires WellFormed(s0) && x < NUM_TASKS
    ensures var s1 := InitiateEls(s0, port, CbArg(Rrq, Some(x)), e);
            Silent(s0, if ElsStarts(s0, port, e) then s1 else Store(s1, x, Put(s1.reqs[x])))
  {
    var s1 := InitiateEls(s0, port, CbArg(Rrq, Some(x)), e);
    SilentEls(s0, port, CbArg(Rrq, Some(x)), e);
    if !ElsStarts(s0, port, e) {
      TamePut(s1.reqs[x]);
      SilentStore(s1, x, Put(s1.reqs[x]));
      SilentTransitive(s0, s1, Store(s1, x, Put(s1.reqs[x])));
    }
  }

  // ---- Posting

  lemma {:induction false} BoundAs(r: IoReq, c: nat, posted: bool)
    ensures var f := Bind(r, c, posted);
            f.life == r.life && f.scCmd == Some(c) && Put(Unbind(f)).life >= r.life && Put(Unbind(f)).scCmd.None?
  {}

  /** Posting on request `n`, which was free in `s` and has been taken in `s1`. */
  lemma {:induction false} PostAges(s: State, s1: State, n: nat, c: nat, e: Env)
    requires WellFormed(s1) && n < NUM_TASKS && AllAge(s, s1) && AllShy(s, s1, {}) && !s.reqs[n].alloc
    ensures var s' := PostTaken(s1, n, c, e);
            AllAge(s, s') && AllShy(s, s', if e.postOk then {c} else {}) && s'.log == s1.log
  {
    BoundAs(s1.reqs[n], c, e.postOk);
    var s' := PostTaken(s1, n, c, e);
    forall i | 0 <= i < |s.reqs|
      ensures Ages(s.reqs[i], s'.reqs[i]) && (Shy(s.reqs[i], s'.reqs[i]) || (e.postOk && s'.reqs[i].scCmd == Some(c)))
    {
      assert Ages(s.reqs[i], s1.reqs[i]) && Shy(s.reqs[i], s1.reqs[i]);
      if i != n { assert s'.reqs[i] == s1.reqs[i]; }
    }
  }

  /** Posting a command that no exchange holds and that is owed an answer. */
  lemma {:induction false} PostBooks(s: State, n: nat, c: nat, e: Env)
    requires WellFormed(s) && n < NUM_TASKS
    requires BooksOk(s) && !Holds(s, c) && (e.postOk ==> Count(s.log, GivesBack(c)) < Count(s.log, Accepts(c)))
    ensures BooksOk(PostTaken(s, n, c, e))
  {
    var s' := PostTaken(s, n, c, e);
    var r := Bind(s.reqs[n], c, e.postOk);
    if e.postOk { PostedScp(s, s', n, r, c); } else { TouchFreeScp(s, s', n, Put(Unbind(r)), c); }
  }

  lemma {:induction false} SilentTake(s: State, n: nat, port: nat)
    requires WellFormed(s) && n < NUM_TASKS && port < |s.active| && !s.reqs[n].alloc
    ensures Silent(s, TakeFresh(s, n, port, ScsiCmd))
  {
    SilentChange(s, TakeFresh(s, n, port, ScsiCmd), n, Fresh(s.reqs[n], port, ScsiCmd));
  }

  /** The request that gives up command `c` was the only one that had it. */
  lemma {:induction false} RequeueOwes(s: State, x: nat, n: nat, port: nat)
    requires WellFormed(s) && x < NUM_TASKS && s.reqs[x].scCmd.Some? && BooksOk(s)
    requires n < NUM_TASKS && port < |s.active| && !s.reqs[n].alloc
    ensures var s1 := TakeFresh(s, n, port, ScsiCmd); var s2 := Store(s1, x, Put(Unbind(s1.reqs[x])));
            var c := s.reqs[x].scCmd.value;
            !Holds(s2, c) && Count(s2.log, GivesBack(c)) < Count(s2.log, Accepts(c))
  {
    assert Holds(s, s.reqs[x].scCmd.value);
  }

  lemma {:induction false} TameUnbind(r: IoReq)
    ensures Tame(r, Put(Unbind(r)))
  {}

  lemma {:induction false} AgeTransitive(s: State, s1: State, s2: State)
    requires AllAge(s, s1) && AllAge(s1, s2)
    ensures AllAge(s, s2)
  {
    forall i | 0 <= i < |s.reqs| ensures Ages(s.reqs[i], s2.reqs[i]) {
      assert Ages(s.reqs[i], s1.reqs[i]) && Ages(s1.reqs[i], s2.reqs[i]);
    }
  }

  lemma {:induction false} SilentRepost(s: State, x: nat, n: nat, port: nat, e: Env)
    requires WellFormed(s) && x < NUM_TASKS && s.reqs[x].scCmd.Some?
    requires n < NUM_TASKS && port < |s.active| && !s.reqs[n].alloc
    ensures var s1 := TakeFresh(s, n, port, ScsiCmd);
            SilentBut(s, PostTaken(Store(s1, x, Put(Unbind(s1.reqs[x]))), n, s.reqs[x].scCmd.value, e),
                      if e.postOk then {s.reqs[x].scCmd.value} else {})
  {
    var s1, c := TakeFresh(s, n, port, ScsiCmd), s.reqs[x].scCmd.value;
    var s2 := Store(s1, x, Put(Unbind(s1.reqs[x])));
    SilentTake(s, n, port);
    TameUnbind(s1.reqs[x]);
    SilentThen(s, s1, x, Put(Unbind(s1.reqs[x])));
    PostAges(s, s2, n, c, e);
    if BooksOk(s) {
      RequeueOwes(s, x, n, port);
      PostBooks(s2, n, c, e);
    }
  }

  lemma {:induction false} SilentRequeue(s: State, x: nat, e: Env)
    requires WellFormed(s) && x < NUM_TASKS
    ensures SilentBut(s, Requeue(s, x, e), Requeued(s, x, e))
  {
    var r := s.reqs[x];
    if r.fcport.Some? && r.scCmd.Some? {
      var n := FreeSlot(s, r.fcport.value, e);
      if n.Some? {
        var s1 := TakeFresh(s, n.value, r.fcport.value, ScsiCmd);
        var s2 := PostTaken(Store(s1, x, Put(Unbind(s1.reqs[x]))), n.value, r.scCmd.value, e);
        SilentRepost(s, x, n.value, r.fcport.value, e);
        SilentAbort(s2, x, false, e);
        SilentAnyway(s2, Store(s2, x, InitiateAbts(s2.reqs[x], false, e)), Requeued(s, x, e));
        if e.postOk { SilentButTransitive(s, s2, Requeue(s, x, e), Requeued(s, x, e)); }
      }
    }
  }

  // ---- Which command a step puts on a new exchange

  /** What qedf_requeue_io_req moves: the command of `x`, if there is a request to take for it and the post
      succeeds. */
  function Requeued(s: State, x: nat, e: Env): (gained: set<nat>)
    requires WellFormed(s) && x < NUM_TASKS
  {
    var r := s.reqs[x];
    if r.fcport.Some? && r.scCmd.Some? && FreeSlot(s, r.fcport.value, e).Some? && e.postOk then {r.scCmd.value} else {}
  }

  /** What the callback of the ELS request `y` moves: it must be a REC that did not time out, and the peer
      must have answered that the command is lost. */
  function CallbackMoves(s: State, cb: Option<CbArg>, ev: Event, e: Env): (gained: set<nat>)
    requires WellFormed(s)
  {
    if cb.Some? && cb.value.op.Rec? && cb.value.aborted.Some? && cb.value.aborted.value < NUM_TASKS
       && !ev.EvElsTmo? && e.reply.CommandLost?
    then Requeued(s, cb.value.aborted.value, e) else {}
  }

  /** The commands that a step puts on a new exchange: one that is accepted, or one that is requeued. */
  function Gains(s: State, t: Step): (gained: set<nat>)
    requires WellFormed(s) && Enabled(s, t)
  {
    match t
    case Queue(port, c, e) => if FreeSlot(s, port, e).Some? && e.postOk then {c} else {}
    case GoodCqe(y, e) =>
      var r := s.reqs[y];
      if CqeDispatched(r, e) && r.cmdType.Els? && !ElsComplIgnored(r, e) then CallbackMoves(s, r.cb, r.event, e) else {}
    case FlushVisits(y, port, e) =>
      if FlushesEls(s.reqs[y], port, e) then CallbackMoves(s, s.reqs[y].cb, EvElsFlush, e) else {}
    case FlushResumes(y, e) =>
      if s.reqs[y].flushWait.FlushEls? then CallbackMoves(ElsCleaned(s, y, e), s.reqs[y].cb, EvElsFlush, e) else {}
    case _ => {}
  }

  /** The flush of an ELS request ends without a wait. */
  predicate FlushesEls(r: IoReq, port: nat, e: Env) {
    && r.alloc && r.fcport == Some(port) && Outstanding in r.flags && r.cmdType.Els? && e.wholeTarget
    && r.refs != 0 && !CleanupWaits(Get(r), e)
  }

  lemma {:induction false} RequeuedSame(s: State, s': State, x: nat, e: Env)
    requires WellFormed(s) && SameSlots(s, s') && x < NUM_TASKS
    ensures Requeued(s', x, e) == Requeued(s, x, e)
  {
    assert SameHold(s.reqs[x], s'.reqs[x]);
    if s.reqs[x].fcport.Some? { SlotsSame(s, s', s.reqs[x].fcport.value, e); }
  }

  lemma {:induction false} MovesSame(s: State, s': State, cb: Option<CbArg>, ev: Event, e: Env)
    requires WellFormed(s) && SameSlots(s, s')
    ensures CallbackMoves(s', cb, ev, e) == CallbackMoves(s, cb, ev, e)
  {
    if cb.Some? && cb.value.aborted.Some? && cb.value.aborted.value < NUM_TASKS {
      RequeuedSame(s, s', cb.value.aborted.value, e);
    }
  }

  // ---- ELS handlers

  lemma {:induction false} SilentRecActs(s: State, x: nat, e: Env)
    requires WellFormed(s) && x < NUM_TASKS
    ensures SilentBut(s, RecAnswered(s, x, e), if e.reply.CommandLost? then Requeued(s, x, e) else {})
  {
    var s1 := Store(s, x, StopTimer(s.reqs[x]));
    TameStopTimer(s.reqs[x]);
    SilentStore(s, x, StopTimer(s.reqs[x]));
    if e.reply.CommandLost? {
      RequeuedSame(s, s1, x, e);
      SilentRequeue(s1, x, e);
      SilentAnyway(s, s1, Requeued(s, x, e));
      SilentButTransitive(s, s1, Requeue(s1, x, e), Requeued(s, x, e));
    } else {
      SilentSrr(s1, x, e);
      SilentTransitive(s, s1, SendSrr(s1, x, e));
    }
  }

  lemma {:induction false} TameStopTimer(r: IoReq)
    ensures Tame(r, StopTimer(r)) && Tame(r, Quiesce(r))
  {}

  lemma {:induction false} SilentActs(s: State, op: ElsOp, x: nat, ev: Event, e: Env)
    requires WellFormed(s) && x < NUM_TASKS
    ensures SilentBut(s, CallbackActs(s, op, x, ev, e), CallbackMoves(s, Some(CbArg(op, Some(x))), ev, e))
  {
    match op
    case Adisc =>
    case Rrq =>
    case Rec => if !ev.EvElsTmo? { SilentRecActs(s, x, e); }
    case Srr =>
      TameSrrReturns(s.reqs[x], ev, e);
      SilentStore(s, x, SrrReturns(s.reqs[x], ev, e));
  }

  lemma {:induction false} SilentCallback(s: State, cb: Option<CbArg>, ev: Event, e: Env)
    requires WellFormed(s)
    ensures SilentBut(s, Callback(s, cb, ev, e), CallbackMoves(s, cb, ev, e))
  {
    if cb.Some? && !cb.value.op.Adisc? && cb.value.aborted.Some? && cb.value.aborted.value < NUM_TASKS {
      var x := cb.value.aborted.value;
      var s1 := CallbackActs(s, cb.value.op, x, ev, e);
      SilentActs(s, cb.value.op, x, ev, e);
      TamePut(s1.reqs[x]);
      SilentStore(s1, x, Put(s1.reqs[x]));
      SilentAnyway(s1, Store(s1, x, Put(s1.reqs[x])), CallbackMoves(s, cb, ev, e));
      SilentButTransitive(s, s1, Store(s1, x, Put(s1.reqs[x])), CallbackMoves(s, cb, ev, e));
    }
  }

  /** An ELS handler stores `r`, runs the callback and leaves `fin` of what it finds. */
  lemma {:induction false} SilentRun(s: State, y: nat, r: IoReq, e: Env, r': IoReq)
    requires WellFormed(s) && y < NUM_TASKS && Tame(s.reqs[y], r) && Tame(RunCallback(s, y, r, e).reqs[y], r')
    requires SameHold(s.reqs[y], r)
    ensures SilentBut(s, Settle(RunCallback(s, y, r, e), y, r'), CallbackMoves(s, r.cb, r.event, e))
  {
    var s0, gained := Store(s, y, r), CallbackMoves(s, r.cb, r.event, e);
    var s1 := Callback(s0, r.cb, r.event, e);
    SilentStore(s, y, r);
    MovesSame(s, s0, r.cb, r.event, e);
    SilentCallback(s0, r.cb, r.event, e);
    SilentAnyway(s, s0, gained);
    SilentButTransitive(s, s0, s1, gained);
    SilentStore(s1, y, r');
    SilentAnyway(s1, Settle(s1, y, r'), gained);
    SilentButTransitive(s, s1, Settle(s1, y, r'), gained);
  }

  lemma {:induction false} SilentElsCompl(s: State, y: nat, e: Env)
    requires WellFormed(s) && y < NUM_TASKS
    ensures SilentBut(s, ElsCompl(s, y, e),
                      if ElsComplIgnored(s.reqs[y], e) then {} else CallbackMoves(s, s.reqs[y].cb, s.reqs[y].event, e))
  {
    if !ElsComplIgnored(s.reqs[y], e) {
      var r := Quiesce(s.reqs[y]);
      TameStopTimer(s.reqs[y]);
      TameElsDrop(RunCallback(s, y, r, e).reqs[y]);
      SilentRun(s, y, r, e, ElsDrop(RunCallback(s, y, r, e).reqs[y]));
    }
  }

  lemma {:induction false} SilentTimedOut(s: State, y: nat, r: IoReq, e: Env)
    requires WellFormed(s) && y < NUM_TASKS && Tame(s.reqs[y], r) && SameHold(s.reqs[y], r)
    ensures Silent(s, ElsTimedOut(s, y, r, e))
  {
    var r1 := WithEvent(r, EvElsTmo);
    TameElsDrop(RunCallback(s, y, r1, e).reqs[y]);
    SilentRun(s, y, r1, e, ElsTmoDrop(RunCallback(s, y, r1, e).reqs[y]));
  }

  lemma {:induction false} SilentElsFlushed(s: State, y: nat, r: IoReq, e: Env)
    requires WellFormed(s) && y < NUM_TASKS && Tame(s.reqs[y], r) && SameHold(s.reqs[y], r)
    ensures SilentBut(s, ElsFlushed(s, y, r, e), CallbackMoves(s, r.cb, EvElsFlush, e))
  {
    var r1 := WithEvent(Quiesce(r), EvElsFlush);
    TameElsFlushDrop(RunCallback(s, y, r1, e).reqs[y]);
    SilentRun(s, y, r1, e, ElsFlushDrop(RunCallback(s, y, r1, e).reqs[y]));
  }

  lemma {:induction false} TameElsBegins(r: IoReq, e: Env)
    ensures var q := Quiesce(Get(r));
            && Tame(r, CleanupBegin(q, true, e)) && Tame(r, ElsTmoSuspends(CleanupBegin(q, true, e)))
            && SameHold(r, CleanupBegin(q, true, e))
    ensures Tame(r, CleanupBegin(Get(r), false, e)) && Tame(r, FlushElsSuspends(CleanupBegin(Get(r), false, e)))
    ensures SameHold(r, CleanupBegin(Get(r), false, e)) && CleanupBegin(Get(r), false, e).cb == r.cb
  {}

  lemma {:induction false} SilentTimeout(s: State, y: nat, e: Env)
    requires WellFormed(s) && y < NUM_TASKS
    ensures Silent(s, ElsTimeout(s, y, e))
  {
    var c := CleanupBegin(Quiesce(Get(s.reqs[y])), true, e);
    TameElsBegins(s.reqs[y], e);
    if CleanupWaits(Quiesce(Get(s.reqs[y])), e) {
      SilentStore(s, y, ElsTmoSuspends(c));
    } else {
      var s0 := s.(running := Some(y));
      SilentTimedOut(s0, y, c, e);
      SilentChange(s, s0, y, s.reqs[y]);
      SilentTransitive(s, s0, ElsTimedOut(s0, y, c, e));
    }
  }

  lemma {:induction false} SilentFlushEls(s: State, y: nat, e: Env)
    requires WellFormed(s) && y < NUM_TASKS
    ensures SilentBut(s, FlushElsVisit(s, y, e),
                      if s.reqs[y].refs != 0 && !CleanupWaits(Get(s.reqs[y]), e)
                      then CallbackMoves(s, s.reqs[y].cb, EvElsFlush, e) else {})
  {
    var c := CleanupBegin(Get(s.reqs[y]), false, e);
    TameElsBegins(s.reqs[y], e);
    SilentChange(s, s, y, s.reqs[y]);
    if s.reqs[y].refs != 0 {
      if CleanupWaits(Get(s.reqs[y]), e) {
        SilentStore(s, y, FlushElsSuspends(c));
      } else {
        var s0 := s.(running := Some(y));
        var gained := CallbackMoves(s, s.reqs[y].cb, EvElsFlush, e);
        SilentElsFlushed(s0, y, c, e);
        MovesSame(s, s0, s.reqs[y].cb, EvElsFlush, e);
        SilentChange(s, s0, y, s.reqs[y]);
        SilentAnyway(s, s0, gained);
        SilentButTransitive(s, s0, ElsFlushed(s0, y, c, e), gained);
      }
    }
  }

  // ---- Steps

  /** What a step may append: an acceptance, or one command given back by the request that has it, as a
      normal completion only by a request of the SCSI type. */
  ghost predicate EntryOk(s: State, l: LogEntry) {
    l.Returned? ==>
      && l.req < |s.reqs| && s.reqs[l.req].life == l.life && s.reqs[l.req].scCmd == Some(l.cmd)
      && (l.normal ==> s.reqs[l.req].cmdType.ScsiCmd?)
  }

  ghost predicate LawfulBut(s: State, s': State, gained: set<nat>) {
    && AllAge(s, s') && AllShy(s, s', gained) && (BooksOk(s) ==> BooksOk(s'))
    && (s'.log == s.log || exists l :: s'.log == s.log + [l] && EntryOk(s, l) && (l.Accepted? ==> l.cmd in gained))
  }

  ghost predicate Lawful(s: State, s': State) { LawfulBut(s, s', {}) }

  lemma {:induction false} LawfulThen(s: State, s1: State, s2: State, gained: set<nat>)
    requires Lawful(s, s1) && SilentBut(s1, s2, gained)
    ensures LawfulBut(s, s2, gained)
  {
    AgeTransitive(s, s1, s2);
    assert AllShy(s, s1, gained);
    ShyTransitive(s, s1, s2, gained);
  }

  lemma {:induction false} LawfulFinish(s: State, x: nat, o: Outcome, normal: bool)
    requires x < |s.reqs| && TameOutcome(s.reqs[x], o) && (normal ==> s.reqs[x].cmdType.ScsiCmd?)
    ensures Lawful(s, Finish(s, x, o, normal))
  {
    SilentStore(s, x, o.req);
    if o.done.Some? {
      assert EntryOk(s, Returned(o.done.value, x, s.reqs[x].life, normal));
      if BooksOk(s) {
        FinishScp(s, x, o, normal);
        FinishLog(s, x, o, normal);
      }
    }
  }

  lemma {:induction false} LawfulPost(s: State, n: nat, port: nat, c: nat, e: Env)
    requires WellFormed(s) && n < NUM_TASKS && port < |s.active| && !s.reqs[n].alloc
    ensures var s' := PostOn(s, n, port, c, e);
            AllAge(s, s') && AllShy(s, s', if e.postOk then {c} else {}) && s'.log == s.log
    ensures BooksOk(s) && !Holds(s, c) && (e.postOk ==> Count(s.log, GivesBack(c)) < Count(s.log, Accepts(c))) ==>
              BooksOk(PostOn(s, n, port, c, e))
  {
    var s1 := TakeFresh(s, n, port, ScsiCmd);
    SilentTake(s, n, port);
    PostAges(s, s1, n, c, e);
    if BooksOk(s) && !Holds(s, c) && (e.postOk ==> Count(s.log, GivesBack(c)) < Count(s.log, Accepts(c))) {
      PostBooks(s1, n, c, e);
    }
  }

  lemma {:induction false} LawfulQueue(s: State, port: nat, c: nat, e: Env)
    requires WellFormed(s) && !Holds(s, c)
    ensures LawfulBut(s, QueueCmd(s, port, c, e), if FreeSlot(s, port, e).Some? && e.postOk then {c} else {})
  {
    var n := FreeSlot(s, port, e);
    if n.Some? {
      if e.postOk {
        var s0 := s.(log := s.log + [Accepted(c)]);
        LawfulPost(s0, n.value, port, c, e);
        assert EntryOk(s, Accepted(c));
        if BooksOk(s) { AcceptBooks(s, c); }
      } else {
        LawfulPost(s, n.value, port, c, e);
      }
    }
  }

  lemma {:induction false} AcceptBooks(s: State, c: nat)
    requires BooksOk(s)
    ensures var s' := s.(log := s.log + [Accepted(c)]);
            BooksOk(s') && (!Holds(s, c) ==> Count(s'.log, GivesBack(c)) < Count(s'.log, Accepts(c)))
  {
    var s' := s.(log := s.log + [Accepted(c)]);
    forall d: nat
      ensures Count(s'.log, GivesBack(d)) + One(Holds(s', d)) + One(d == c) <= Count(s'.log, Accepts(d))
    {
      CountAppend(s.log, GivesBack(d), Accepted(c));
      CountAppend(s.log, Accepts(d), Accepted(c));
      assert Count(s.log, GivesBack(d)) + One(Holds(s, d)) <= Count(s.log, Accepts(d));
    }
  }

  lemma {:induction false} SilentIsLawful(s: State, s': State, gained: set<nat>)
    requires SilentBut(s, s', gained)
    ensures LawfulBut(s, s', gained)
  {}

  lemma {:induction false} LawfulStore(s: State, x: nat, r: IoReq)
    requires x < |s.reqs| && Tame(s.reqs[x], r)
    ensures Lawful(s, Store(s, x, r))
  {
    SilentStore(s, x, r);
  }

  lemma {:induction false} Unchanged(s: State)
    ensures Lawful(s, s)
  {}

  lemma {:induction false} LawfulGood(s: State, x: nat, e: Env)
    requires WellFormed(s) && x < NUM_TASKS
    ensures LawfulBut(s, Good(s, x, e), Gains(s, GoodCqe(x, e)))
  {
    Unchanged(s);
    if s.reqs[x].cmdType.ScsiCmd? {
      TameCompletion(s.reqs[x], Token(s, x), e);
      LawfulFinish(s, x, ScsiCompletion(s.reqs[x], Token(s, x), e), true);
    } else {
      SilentElsCompl(s, x, e);
    }
  }

  lemma {:induction false} LawfulFlush(s: State, x: nat, port: nat, e: Env)
    requires WellFormed(s) && Enabled(s, FlushVisits(x, port, e))
    ensures LawfulBut(s, Flush(s, x, port, e), Gains(s, FlushVisits(x, port, e)))
  {
    var r := s.reqs[x];
    Unchanged(s);
    if Outstanding !in r.flags {
      TameNotOutstanding(r);
      LawfulStore(s, x, FlushNotOutstanding(r));
    } else if r.cmdType.Els? && e.wholeTarget {
      SilentFlushEls(s, x, e);
    } else if r.cmdType.Abts? {
      TameFlushAbts(r, e);
      LawfulStore(s, x, FlushAbtsVisit(r, e));
    } else {
      TameFlushScsi(r, Token(s, x), e);
      LawfulFinish(s, x, FlushScsiVisit(r, Token(s, x), e), false);
    }
  }

  lemma {:induction false} LawfulTimer(s: State, x: nat, e: Env)
    requires WellFormed(s) && x < NUM_TASKS
    ensures Lawful(s, Timer(s, x, e))
  {
    var r := s.reqs[x];
    if r.fcport.Some? && r.cmdType.Abts? {
      TameAbtsTimeout(r, e);
      LawfulStore(s, x, AbtsTimeout(r, e));
    } else if r.fcport.Some? && r.cmdType.Els? {
      SilentTimeout(s, x, e);
    } else {
      TameStopTimer(r);
      LawfulStore(s, x, StopTimer(r));
    }
  }

  lemma {:induction false} LawfulResume(s: State, x: nat, e: Env)
    requires WellFormed(s) && x < NUM_TASKS
    ensures Lawful(s, Finish(s, x, AbtsTimeoutEnd(s.reqs[x], Token(s, x), e), false))
    ensures Lawful(s, ElsTmoResumed(s, x, e))
  {
    TameAbtsTimeoutEnd(s.reqs[x], Token(s, x), e);
    LawfulFinish(s, x, AbtsTimeoutEnd(s.reqs[x], Token(s, x), e), false);
    var s1 := ElsCleaned(s, x, e);
    LawfulCleaned(s, x, e);
    SilentTimedOut(s1, x, s1.reqs[x], e);
    LawfulThen(s, s1, ElsTmoResumed(s, x, e), {});
  }

  lemma {:induction false} LawfulCleaned(s: State, x: nat, e: Env)
    requires WellFormed(s) && x < NUM_TASKS
    ensures Lawful(s, ElsCleaned(s, x, e)) && ElsCleaned(s, x, e).reqs[x].cb == s.reqs[x].cb
  {
    TameCleanupEnd(s.reqs[x], Token(s, x), e);
    LawfulFinish(s, x, CleanupEnd(s.reqs[x], Token(s, x), e), false);
  }

  lemma {:induction false} LawfulFlushResume(s: State, x: nat, e: Env)
    requires WellFormed(s) && x < NUM_TASKS
    ensures s.reqs[x].flushWait.FlushEls? ==>
              LawfulBut(s, FlushElsResumed(s, x, e), CallbackMoves(ElsCleaned(s, x, e), s.reqs[x].cb, EvElsFlush, e))
    ensures !s.reqs[x].flushWait.FlushEls? ==>
              Lawful(s, Finish(s, x, FlushScsiEnd(s.reqs[x], Token(s, x), e), false))
  {
    if s.reqs[x].flushWait.FlushEls? {
      var s1 := ElsCleaned(s, x, e);
      LawfulCleaned(s, x, e);
      SilentElsFlushed(s1, x, s1.reqs[x], e);
      LawfulThen(s, s1, FlushElsResumed(s, x, e), CallbackMoves(s1, s.reqs[x].cb, EvElsFlush, e));
    } else {
      TameFlushEnd(s.reqs[x], Token(s, x), e);
      LawfulFinish(s, x, FlushScsiEnd(s.reqs[x], Token(s, x), e), false);
    }
  }

  lemma {:induction false} LawfulEh(s: State, t: Step)
    requires WellFormed(s) && Enabled(s, t) && (t.EhStarts? || t.EhAborts? || t.EhLeaves? || t.CleanupCqe?)
    ensures Lawful(s, Apply(s, t))
  {
    Unchanged(s);
    match t
    case EhStarts(c) =>
      if c in s.scp && s.scp[c] < NUM_TASKS {
        TameEhBegin(s.reqs[s.scp[c]]);
        LawfulStore(s, s.scp[c], EhBegin(s.reqs[s.scp[c]]));
      }
    case EhAborts(x, e) =>
      TameEhAbort(s.reqs[x], Token(s, x), e);
      LawfulFinish(s, x, EhAbort(s.reqs[x], Token(s, x), e), false);
    case EhLeaves(x) =>
      TameEhBegin(s.reqs[x]);
      LawfulStore(s, x, EhEnd(s.reqs[x]));
    case CleanupCqe(x, e) =>
      TameEhBegin(s.reqs[x]);
      LawfulStore(s, x, CleanupDone(s.reqs[x]));
  }

  lemma {:induction false} TameEhBegin(r: IoReq)
    ensures Tame(r, EhBegin(r)) && Tame(r, EhEnd(r)) && Tame(r, CleanupDone(r))
  {}

  lemma {:induction false} LawfulCqe(s: State, t: Step)
    requires WellFormed(s) && Enabled(s, t) && (t.ErrorCqe? || t.WarningCqe? || t.AbtsCqe?)
    ensures Lawful(s, Apply(s, t))
  {
    Unchanged(s);
    match t
    case ErrorCqe(x, e) => SilentAbort(s, x, true, e);
    case WarningCqe(x, recTov, e) => if recTov { SilentRec(s, x, e); } else { SilentAbort(s, x, true, e); }
    case AbtsCqe(x, reply, e) =>
      TameAbtsCompl(s.reqs[x], reply, Token(s, x), e);
      LawfulFinish(s, x, AbtsCompl(s.reqs[x], reply, Token(s, x), e), false);
  }

  lemma {:induction false} LawfulStep(s: State, t: Step)
    requires WellFormed(s) && Enabled(s, t)
    ensures LawfulBut(s, Apply(s, t), Gains(s, t))
  {
    match t
    case Queue(port, c, e) => LawfulQueue(s, port, c, e);
    case GoodCqe(x, e) => LawfulGood(s, x, e);
    case ErrorCqe(_, _) => LawfulCqe(s, t);
    case WarningCqe(_, _, _) => LawfulCqe(s, t);
    case AbtsCqe(_, _, _) => LawfulCqe(s, t);
    case CleanupCqe(_, _) => LawfulEh(s, t);
    case TimerFires(x, e) => LawfulTimer(s, x, e);
    case AbtsTmoResumes(x, e) => LawfulResume(s, x, e);
    case ElsTmoResumes(x, e) => LawfulResume(s, x, e);
    case RrqRuns(x, e) => SilentRrq(s, x, e); SilentIsLawful(s, SendRrq(s, x, e), {});
    case FlushVisits(x, port, e) => LawfulFlush(s, x, port, e);
    case FlushResumes(x, e) => LawfulFlushResume(s, x, e);
    case EhStarts(_) => LawfulEh(s, t);
    case EhAborts(_, _) => LawfulEh(s, t);
    case EhLeaves(_) => LawfulEh(s, t);
    case SendAdisc(port, e) => Unchanged(s); SilentEls(s, port, CbArg(Adisc, None), e);
  }
}
