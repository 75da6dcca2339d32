/** Queueing and posting a command keep the invariant. */
module ExchangeSteps {
  import opened Requests
  import opened Exchange
  import opened Holders
  import opened Counting
  import opened ExchangeInvariant

  // ---- Posting a command

  lemma {:induction false} FreshScsi(r: IoReq, port: nat, c: nat, posted: bool)
    requires ReqOk(r, 0) && !r.alloc && OwnRefs(r) == 0
    ensures var f := Bind(Fresh(r, port, ScsiCmd), c, posted);
            && (posted ==> ReqOk(f, 0)) && Target(f) == None && ReqOk(Put(Unbind(f)), 0) && !Put(Unbind(f)).alloc
  {}

  /** The posted request in one piece. */
  lemma {:induction false} PostedAs(s: State, n: nat, port: nat, c: nat, e: Env)
    requires WellFormed(s) && MayTake(s, n, port)
    ensures var r := Bind(Fresh(s.reqs[n], port, ScsiCmd), c, e.postOk);
            PostOn(s, n, port, c, e) ==
              if e.postOk then Take(s, n, port, r).(scp := s.scp[c := n])
              else Store(Take(s, n, port, r), n, Put(Unbind(r))).(scp := s.scp[c := n])
  {
    var r := Bind(Fresh(s.reqs[n], port, ScsiCmd), c, e.postOk);
    assert s.reqs[n := Fresh(s.reqs[n], port, ScsiCmd)][n := r] == s.reqs[n := r];
  }

  lemma {:induction false} PostKeeps(s: State, n: nat, port: nat, c: nat, e: Env)
    requires Sound(s) && MayTake(s, n, port) && !Holds(s, c)
    requires e.postOk ==> Count(s.log, GivesBack(c)) < Count(s.log, Accepts(c))
    ensures Sound(PostOn(s, n, port, c, e))
  {
    if e.postOk { PostSucceeds(s, n, port, c, e); } else { PostFails(s, n, port, c, e); }
  }

  lemma {:induction false} PostSucceeds(s: State, n: nat, port: nat, c: nat, e: Env)
    requires Sound(s) && MayTake(s, n, port) && !Holds(s, c) && e.postOk
    requires Count(s.log, GivesBack(c)) < Count(s.log, Accepts(c))
    ensures Sound(PostOn(s, n, port, c, e))
  {
    FreeHasNoRefs(s, n, 0, 0);
    FreshScsi(s.reqs[n], port, c, true);
    var r := Bind(Fresh(s.reqs[n], port, ScsiCmd), c, true);
    PostedAs(s, n, port, c, e);
    TakeReqs(s, n, port, r, 0, 0);
    TakeTargets(s, n, port, r, 0);
    TakePool(s, n, port, r);
    PostedReqs(Take(s, n, port, r), PostOn(s, n, port, c, e));
    PostedScp(s, PostOn(s, n, port, c, e), n, r, c);
  }

  lemma {:induction false} PostFails(s: State, n: nat, port: nat, c: nat, e: Env)
    requires Sound(s) && MayTake(s, n, port) && !Holds(s, c) && !e.postOk
    ensures Sound(PostOn(s, n, port, c, e))
  {
    FreeHasNoRefs(s, n, 0, 0);
    FreshScsi(s.reqs[n], port, c, false);
    var r := Bind(Fresh(s.reqs[n], port, ScsiCmd), c, false);
    PostedAs(s, n, port, c, e);
    GivenBack(s, n, port, r, Put(Unbind(r)));
    TouchFree(s, PostOn(s, n, port, c, e), n, Put(Unbind(r)), c, 0, 0);
  }

  lemma {:induction false} PostedReqs(s1: State, s': State)
    requires ReqsOk(s1, 0, 0) && TargetsOk(s1) && PoolOk(s1)
    requires s'.reqs == s1.reqs && s'.freeCnt == s1.freeCnt && s'.active == s1.active && s'.running == s1.running
    ensures ReqsOk(s', 0, 0) && TargetsOk(s') && PoolOk(s')
  {
    forall j | 0 <= j < |s'.reqs| ensures ReqExcept(s', j, 0, 0) {
      assert ReqExcept(s1, j, 0, 0);
    }
  }

  lemma {:induction false} PostedScp(s: State, s': State, n: nat, r: IoReq, c: nat)
    requires ScpOk(s) && LogOk(s) && n < |s.reqs| && r.scCmd == Some(c) && !Holds(s, c)
    requires s'.reqs == s.reqs[n := r] && s'.log == s.log && s'.scp == s.scp[c := n]
    requires Count(s.log, GivesBack(c)) < Count(s.log, Accepts(c))
    ensures ScpOk(s') && LogOk(s')
  {
    forall j | 0 <= j < |s'.reqs| && s'.reqs[j].scCmd.Some?
      ensures s'.reqs[j].scCmd.value in s'.scp && s'.scp[s'.reqs[j].scCmd.value] == j
    {
      if j != n { assert Holds(s, s.reqs[j].scCmd.value); }
    }
    forall d: nat ensures Count(s'.log, GivesBack(d)) + One(Holds(s', d)) <= Count(s'.log, Accepts(d)) {
      assert Count(s.log, GivesBack(d)) + One(Holds(s, d)) <= Count(s.log, Accepts(d));
      if Holds(s', d) && d != c { assert s.scp[d] == s'.scp[d]; }
    }
  }

  lemma {:induction false} QueuePosts(s: State, n: nat, port: nat, c: nat, e: Env)
    requires Sound(s) && MayTake(s, n, port) && !Holds(s, c) && e.postOk
    ensures Sound(PostOn(s.(log := s.log + [Accepted(c)]), n, port, c, e))
  {
    var s0 := s.(log := s.log + [Accepted(c)]);
    AcceptKeeps(s, c);
    PostSucceeds(s0, n, port, c, e);
  }

  lemma {:induction false} QueueKeeps(s: State, port: nat, c: nat, e: Env)
    requires Sound(s) && !Holds(s, c)
    ensures Sound(QueueCmd(s, port, c, e))
  {
    var n := FreeSlot(s, port, e);
    if n.Some? {
      if e.postOk { QueuePosts(s, n.value, port, c, e); } else { PostFails(s, n.value, port, c, e); }
    }
  }

  lemma {:induction false} AcceptKeeps(s: State, c: nat)
    requires Sound(s) && !Holds(s, c)
    ensures var s' := s.(log := s.log + [Accepted(c)]);
            Sound(s') && !Holds(s', c) && Count(s'.log, GivesBack(c)) < Count(s'.log, Accepts(c))
  {
    var s' := s.(log := s.log + [Accepted(c)]);
    PostedReqs(s, s');
    forall d: nat
      ensures Count(s'.log, GivesBack(d)) + One(Holds(s', d)) + One(d == c) <= Count(s'.log, Accepts(d))
    {
      CountAppend(s.log, GivesBack(d), Accepted(c));
      CountAppend(s.log, Accepts(d), Accepted(c));
      assert Count(s.log, GivesBack(d)) + One(Holds(s, d)) <= Count(s.log, Accepts(d));
    }
    assert ScpOk(s');
  }
}
