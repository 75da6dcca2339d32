/** Commands whose exchange an abort or a cleanup has taken over. Such a command does not complete normally
    any more, unless the command-lost recovery puts it on a second exchange (or it is submitted again). */
module Withdrawal {
  import opened Requests
  import opened Exchange
  import opened Holders
  import opened Counting
  import opened ExchangeInvariant
  import opened StepInvariant
  import opened ElsCallbacks
  import opened Frame
  import opened Ledger
  import opened ExchangeTheorems
  import Decisions
  import Recovery

  /** No request of the SCSI type has the command. */
  ghost predicate Withdrawn(s: State, c: nat) {
    forall i :: 0 <= i < |s.reqs| && s.reqs[i].scCmd == Some(c) ==> !s.reqs[i].cmdType.ScsiCmd?
  }

  /** Normal completions of command `c`, on whatever exchange. */
  function NormalOf(c: nat): (p: LogEntry -> bool) { (l: LogEntry) => l.Returned? && l.cmd == c && l.normal }

  /** An abort or a cleanup withdraws the command of its request. */
  lemma {:induction false} TakenOver(s: State, x: nat, c: nat)
    requires ScpOk(s) && x < |s.reqs| && s.reqs[x].scCmd == Some(c) && !s.reqs[x].cmdType.ScsiCmd?
    ensures Withdrawn(s, c)
  {}

  // ---- All runs

  /** Some step of the run submits the command again and is accepted. */
  ghost predicate SomeAccepts(s: State, ts: seq<Step>, c: nat)
    requires WellFormed(s) && Admissible(s, ts)
    decreases |ts|
  {
    |ts| > 0 && ((ts[0].Queue? && c in Gains(s, ts[0])) || SomeAccepts(Apply(s, ts[0]), ts[1..], c))
  }

  /** Some step of the run is a REC callback that moves the command to a second exchange. */
  ghost predicate SomeRequeues(s: State, ts: seq<Step>, c: nat)
    requires WellFormed(s) && Admissible(s, ts)
    decreases |ts|
  {
    |ts| > 0 && ((!ts[0].Queue? && c in Gains(s, ts[0])) || SomeRequeues(Apply(s, ts[0]), ts[1..], c))
  }

  lemma {:induction false} WithdrawnStep(s: State, t: Step, c: nat)
    requires WellFormed(s) && Enabled(s, t) && Withdrawn(s, c) && c !in Gains(s, t)
    ensures Withdrawn(Apply(s, t), c) && Count(Apply(s, t).log, NormalOf(c)) == Count(s.log, NormalOf(c))
  {
    var s' := Apply(s, t);
    LawfulStep(s, t);
    forall i | 0 <= i < |s'.reqs| && s'.reqs[i].scCmd == Some(c) ensures !s'.reqs[i].cmdType.ScsiCmd? {
      assert Shy(s.reqs[i], s'.reqs[i]);
    }
    if s'.log != s.log {
      var l :| s'.log == s.log + [l] && EntryOk(s, l);
      CountAppend(s.log, NormalOf(c), l);
    }
  }

  /** In every run, hazards included: once its exchange has been taken over, a command completes normally
      before it is accepted again only if the run requeues it. */
  lemma {:induction false} NormalNeedsRequeue(s: State, ts: seq<Step>, c: nat)
    requires WellFormed(s) && Admissible(s, ts) && Withdrawn(s, c)
    requires !SomeAccepts(s, ts, c) && !SomeRequeues(s, ts, c)
    ensures Withdrawn(After(s, ts), c) && Count(After(s, ts).log, NormalOf(c)) == Count(s.log, NormalOf(c))
    decreases |ts|
  {
    if |ts| > 0 {
      WithdrawnStep(s, ts[0], c);
      NormalNeedsRequeue(Apply(s, ts[0]), ts[1..], c);
    }
  }

  // ---- The condition is exact

  /** A good completion would return the command normally now. */
  ghost predicate CanComplete(s: State, c: nat)
    requires WellFormed(s)
  {
    exists x, e :: 0 <= x < NUM_TASKS && Good(s, x, e).log == s.log + [Returned(c, x, s.reqs[x].life, true)]
  }

  lemma {:induction false} Completes(s: State, x: nat, c: nat, e: Env)
    requires Inv(s) && x < NUM_TASKS && s.reqs[x].scCmd == Some(c) && s.reqs[x].cmdType.ScsiCmd?
    requires e.ready && !e.flushing && e.ptr.GoodPtr?
    ensures Good(s, x, e).log == s.log + [Returned(c, x, s.reqs[x].life, true)]
  {
    ReqAt(s, x);
  }

  lemma {:induction false} CompletableIff(s: State, c: nat)
    requires Inv(s)
    ensures CanComplete(s, c) <==> !Withdrawn(s, c)
  {
    if CanComplete(s, c) {
      var x, e :| 0 <= x < NUM_TASKS && Good(s, x, e).log == s.log + [Returned(c, x, s.reqs[x].life, true)];
      CompletedWas(s, x, c, e);
    }
    if !Withdrawn(s, c) {
      var x :| 0 <= x < |s.reqs| && s.reqs[x].scCmd == Some(c) && s.reqs[x].cmdType.ScsiCmd?;
      var e := Env(true, false, false, false, GoodPtr, false, false, false, false, false, OtherReply,
                   false, false, false, false);
      Completes(s, x, c, e);
    }
  }

  lemma {:induction false} CompletedWas(s: State, x: nat, c: nat, e: Env)
    requires WellFormed(s) && x < NUM_TASKS && Good(s, x, e).log == s.log + [Returned(c, x, s.reqs[x].life, true)]
    ensures !Withdrawn(s, c)
  {
    LawfulGood(s, x, e);
    var l :| Good(s, x, e).log == s.log + [l] && EntryOk(s, l);
    assert (s.log + [l])[|s.log|] == Returned(c, x, s.reqs[x].life, true);
  }

  // What a requeued command is on afterwards

  lemma {:induction false} RequeueBinds(s: State, x: nat, e: Env)
    requires WellFormed(s) && x < NUM_TASKS && s.reqs[x].alloc && Requeued(s, x, e) != {}
    ensures var n := FreeSlot(s, s.reqs[x].fcport.value, e).value; var r := Requeue(s, x, e).reqs[n];
            n != x && !s.reqs[n].alloc && r.scCmd == s.reqs[x].scCmd && r.cmdType.ScsiCmd?
  {}

  lemma {:induction false} AnswerBinds(s: State, x: nat, e: Env)
    requires WellFormed(s) && x < NUM_TASKS && s.reqs[x].alloc && e.reply.CommandLost? && Requeued(s, x, e) != {}
    ensures var n := FreeSlot(s, s.reqs[x].fcport.value, e).value; var r := RecAnswered(s, x, e).reqs[n];
            n != x && !s.reqs[n].alloc && r.scCmd == s.reqs[x].scCmd && r.cmdType.ScsiCmd?
  {
    var s1 := Store(s, x, StopTimer(s.reqs[x]));
    RequeuedSame(s, s1, x, e);
    SlotsSame(s, s1, s.reqs[x].fcport.value, e);
    RequeueBinds(s1, x, e);
  }

  lemma {:induction false} CallbackBinds(s: State, y: nat, e: Env, c: nat)
    requires Sound(s) && y < NUM_TASKS && ElsWaiting(s.reqs[y])
    requires c in CallbackMoves(s, s.reqs[y].cb, s.reqs[y].event, e)
    ensures exists n :: 0 <= n < NUM_TASKS && n != y && BoundTo(Callback(s, s.reqs[y].cb, s.reqs[y].event, e), n, c)
  {
    var r := s.reqs[y];
    var x := Target(r).value;
    CallbackAnswers(s, y, e, c);
    AnswerBinds(s, x, e);
    var s1, n := RecAnswered(s, x, e), FreeSlot(s, s.reqs[x].fcport.value, e).value;
    assert BoundTo(s1, n, c);
    BoundAfter(s1, x, Put(s1.reqs[x]), n, c);
  }

  lemma {:induction false} CallbackAnswers(s: State, y: nat, e: Env, c: nat)
    requires Sound(s) && y < NUM_TASKS && ElsWaiting(s.reqs[y])
    requires c in CallbackMoves(s, s.reqs[y].cb, s.reqs[y].event, e)
    ensures Target(s.reqs[y]).Some? && var x := Target(s.reqs[y]).value;
            && x < NUM_TASKS && s.reqs[x].alloc && e.reply.CommandLost? && c in Requeued(s, x, e)
            && var s1 := RecAnswered(s, x, e);
               Callback(s, s.reqs[y].cb, s.reqs[y].event, e) == Store(s1, x, Put(s1.reqs[x]))
  {
    CalledAs(s, y, e);
  }

  lemma {:induction false} BoundAfter(s: State, x: nat, r: IoReq, n: nat, c: nat)
    requires BoundTo(s, n, c) && x < |s.reqs| && n != x
    ensures BoundTo(Store(s, x, r), n, c)
  {}

  ghost predicate BoundTo(s: State, n: nat, c: nat) {
    n < |s.reqs| && s.reqs[n].scCmd == Some(c) && s.reqs[n].cmdType.ScsiCmd?
  }

  lemma {:induction false} StillBound(s: State, y: nat, r': IoReq, n: nat, c: nat)
    requires y < |s.reqs| && n != y && BoundTo(s, n, c)
    ensures !Withdrawn(Settle(s, y, r'), c)
  {
    assert BoundTo(Settle(s, y, r'), n, c);
  }

  lemma {:induction false} RunBinds(s: State, y: nat, r: IoReq, r': IoReq, e: Env, c: nat)
    requires Poised(s, y, r, r', e) && c in CallbackMoves(s, r.cb, r.event, e)
    ensures !Withdrawn(Ended(s, y, r, r', e), c)
  {
    var s0 := Store(s, y, r);
    HeldAlike(s, y, r);
    MovesSame(s, s0, r.cb, r.event, e);
    CallbackBinds(s0, y, e, c);
    var n :| 0 <= n < NUM_TASKS && n != y && BoundTo(Callback(s0, s0.reqs[y].cb, s0.reqs[y].event, e), n, c);
    StillBound(RunCallback(s, y, r, e), y, r', n, c);
  }

  lemma {:induction false} HeldAlike(s: State, y: nat, r: IoReq)
    requires y < |s.reqs| && SameHold(s.reqs[y], r)
    ensures SameSlots(s, Store(s, y, r)) && Store(s, y, r).reqs[y] == r
  {}

  lemma {:induction false} CompletionBinds(s: State, y: nat, e: Env, c: nat)
    requires Inv(s) && y < NUM_TASKS && s.reqs[y].alloc && s.reqs[y].cmdType.Els? && !ElsComplIgnored(s.reqs[y], e)
    requires c in CallbackMoves(s, s.reqs[y].cb, s.reqs[y].event, e)
    ensures !Withdrawn(ElsCompl(s, y, e), c)
  {
    CompletionPoised(s, y, e);
    RunBinds(s, y, Quiesce(s.reqs[y]), ElsDrop(Quiesce(s.reqs[y])), e, c);
  }

  lemma {:induction false} FlushBinds(s: State, y: nat, e: Env, c: nat)
    requires Inv(s) && y < NUM_TASKS && s.reqs[y].alloc && s.reqs[y].cmdType.Els? && !CleanupWaits(Get(s.reqs[y]), e)
    requires c in CallbackMoves(s, s.reqs[y].cb, EvElsFlush, e)
    ensures !Withdrawn(FlushElsVisit(s, y, e), c)
  {
    var s0 := s.(running := Some(y));
    var r := WithEvent(Quiesce(CleanupBegin(Get(s.reqs[y]), false, e)), EvElsFlush);
    FlushPoised(s, y, e);
    MovesWhileRunning(s, y, r.cb, r.event, e);
    RunBinds(s0, y, r, ElsFlushDrop(r), e, c);
  }

  lemma {:induction false} MovesWhileRunning(s: State, y: nat, cb: Option<CbArg>, ev: Event, e: Env)
    requires WellFormed(s)
    ensures CallbackMoves(s.(running := Some(y)), cb, ev, e) == CallbackMoves(s, cb, ev, e)
  {
    MovesSame(s, s.(running := Some(y)), cb, ev, e);
  }

  lemma {:induction false} FlushResumeBinds(s: State, y: nat, e: Env, c: nat)
    requires Inv(s) && y < NUM_TASKS && s.reqs[y].flushWait.FlushEls?
    requires c in CallbackMoves(ElsCleaned(s, y, e), s.reqs[y].cb, EvElsFlush, e)
    ensures !Withdrawn(FlushElsResumed(s, y, e), c)
  {
    var r := WithEvent(Quiesce(CleanupEnd(s.reqs[y], false, e).req), EvElsFlush);
    LateFlushPoised(s, y, e);
    ResumedAs(s, y, e);
    HeldAlike(s, y, CleanupEnd(s.reqs[y], false, e).req);
    MovesSame(s, ElsCleaned(s, y, e), s.reqs[y].cb, EvElsFlush, e);
    RunBinds(s, y, r, ElsFlushDrop(r), e, c);
  }

  lemma {:induction false} QueueBinds(s: State, port: nat, c: nat, e: Env)
    requires WellFormed(s) && FreeSlot(s, port, e).Some? && e.postOk
    ensures !Withdrawn(QueueCmd(s, port, c, e), c)
  {
    assert BoundTo(QueueCmd(s, port, c, e), FreeSlot(s, port, e).value, c);
  }

  lemma {:induction false} GainsBinds(s: State, t: Step, c: nat)
    requires Inv(s) && Enabled(s, t) && !Hazard(s, t) && c in Gains(s, t)
    ensures !Withdrawn(Apply(s, t), c)
  {
    match t
    case Queue(port, _, e) => QueueBinds(s, port, c, e);
    case GoodCqe(y, e) => ReqAt(s, y); CompletionBinds(s, y, e, c);
    case FlushVisits(y, port, e) => FlushBinds(s, y, e, c);
    case FlushResumes(y, e) => FlushResumeBinds(s, y, e, c);
  }

  /** In some state of the run the command could complete normally. */
  ghost predicate SometimeCompletable(s: State, ts: seq<Step>, c: nat)
    requires WellFormed(s) && Admissible(s, ts)
    decreases |ts|
  {
    CanComplete(s, c) || (|ts| > 0 && SometimeCompletable(Apply(s, ts[0]), ts[1..], c))
  }

  /** In a run without hazards, a command that has been withdrawn can complete normally again at some time if
      and only if the run requeues it or it is accepted again. */
  lemma {:induction false} CompletableAgainIff(s: State, ts: seq<Step>, c: nat)
    requires Inv(s) && Admissible(s, ts) && HazardFree(s, ts) && Withdrawn(s, c)
    ensures SometimeCompletable(s, ts, c) <==> SomeRequeues(s, ts, c) || SomeAccepts(s, ts, c)
    decreases |ts|
  {
    CompletableIff(s, c);
    if |ts| > 0 {
      var s' := Apply(s, ts[0]);
      StepKeeps(s, ts[0]);
      CompletableIff(s', c);
      if c in Gains(s, ts[0]) {
        GainsBinds(s, ts[0], c);
      } else {
        WithdrawnStep(s, ts[0], c);
        CompletableAgainIff(s', ts[1..], c);
      }
    }
  }

  // ---- SRR

  /** The end of an SRR withdraws a command only if it aborts the exchange: after an accepted SRR, a timeout or a
      rejection that finds the exchange aborted already, what could complete can complete. */
  lemma {:induction false} SrrLeavesCompletable(s: State, t: Step, y: nat, ev: Event, x: nat, c: nat)
    requires Inv(s) && Enabled(s, t) && !Hazard(s, t) && y < NUM_TASKS && Recovery.EndsEls(s, t, y, ev)
    requires s.reqs[y].cb == Some(CbArg(Srr, Some(x))) && CanComplete(s, c)
    ensures x < NUM_TASKS && SrrSent !in Apply(s, t).reqs[x].flags
    ensures CanComplete(Apply(s, t), c) <==>
            !(s.reqs[x].scCmd == Some(c) && !ev.EvElsTmo? && t.e.reply.SrrRejected?
              && Decisions.MayAbort(s.reqs[x], t.e))
  {
    var s' := Apply(s, t);
    Recovery.SrrActs(s, t, y, ev, x);
    StepKeeps(s, t);
    CompletableIff(s, c);
    CompletableIff(s', c);
    NoCommandOnEls(s, t, y, ev);
    SrrGuards(s.reqs[x], t.e);
    SrrCleared(s, s', x, y, ev, t.e);
    SrrKeepsOthers(s, s', x, y, ev, t.e, c);
  }

  lemma {:induction false} NoCommandOnEls(s: State, t: Step, y: nat, ev: Event)
    requires Inv(s) && Enabled(s, t) && y < NUM_TASKS && Recovery.EndsEls(s, t, y, ev)
    ensures s.reqs[y].scCmd.None?
  {
    ReqAt(s, y);
  }

  lemma {:induction false} SrrCleared(s: State, s': State, x: nat, y: nat, ev: Event, e: Env)
    requires x < |s.reqs| == |s'.reqs| && Recovery.SrrDone(s, s', x, y, ev, e)
    ensures SrrSent !in s'.reqs[x].flags
  {}

  /** SrrSent is none of the guards of an abort. */
  lemma {:induction false} SrrGuards(r: IoReq, e: Env)
    ensures Decisions.MayAbort(r.(flags := r.flags - {SrrSent}), e) == Decisions.MayAbort(r, e)
  {
    Decisions.Bits(r.flags);
    Decisions.Bits(r.flags - {SrrSent});
  }

  lemma {:induction false} SrrKeepsOthers(s: State, s': State, x: nat, y: nat, ev: Event, e: Env, c: nat)
    requires Inv(s) && Inv(s') && x < NUM_TASKS && y < NUM_TASKS && !Withdrawn(s, c) && s.reqs[y].scCmd.None?
    requires Recovery.SrrDone(s, s', x, y, ev, e)
    requires Decisions.MayAbort(s.reqs[x].(flags := s.reqs[x].flags - {SrrSent}), e) == Decisions.MayAbort(s.reqs[x], e)
    ensures Withdrawn(s', c) <==>
            s.reqs[x].scCmd == Some(c) && !ev.EvElsTmo? && e.reply.SrrRejected? && Decisions.MayAbort(s.reqs[x], e)
  {
    var i :| 0 <= i < |s.reqs| && s.reqs[i].scCmd == Some(c) && s.reqs[i].cmdType.ScsiCmd?;
    ReqAt(s, i);
    ReqAt(s, x);
    assert i != y;
    if i != x {
      assert s'.reqs[i] == s.reqs[i];
    } else {
      forall j | 0 <= j < |s'.reqs| && s'.reqs[j].scCmd == Some(c) ensures j == x { ReqAt(s', j); ReqAt(s', x); }
    }
  }
}
