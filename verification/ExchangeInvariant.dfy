/** The invariant of the request pool, and how storing, taking and releasing a request keep it. */
module ExchangeInvariant {
  import opened Requests
  import opened Exchange
  import opened Holders
  import opened Counting

  function Refers(x: nat): (p: IoReq -> bool) { (r: IoReq) => Target(r) == Some(x) }
  function IsFree(): (p: IoReq -> bool) { (r: IoReq) => !r.alloc }
  function OnPort(port: nat): (p: IoReq -> bool) { (r: IoReq) => r.fcport == Some(port) }
  function Accepts(c: nat): (p: LogEntry -> bool) { (l: LogEntry) => l == Accepted(c) }
  function GivesBack(c: nat): (p: LogEntry -> bool) { (l: LogEntry) => l.Returned? && l.cmd == c }

  /** How many ELS requests hold a reference on `x`, and whether a handler is running on it. */
  function Incoming(s: State, x: nat): (n: nat) { Count(s.reqs, Refers(x)) + One(s.running == Some(x)) }

  /** Every reference on `x` that somebody is answerable for. */
  function LiveHolders(s: State, x: nat): (n: nat)
    requires x < |s.reqs|
  {
    OwnRefs(s.reqs[x]) + Incoming(s, x)
  }

  // The parts of the invariant. `x` is a request whose bookkeeping is off by `k` references in the
  // middle of a step; at step boundaries k == 0.

  function Exempt(i: nat, x: nat, k: int): (n: int) { if i == x then k else 0 }

  ghost predicate ReqExcept(s: State, i: nat, x: nat, k: int)
    requires i < |s.reqs|
  {
    ReqOk(s.reqs[i], Incoming(s, i) - Exempt(i, x, k))
  }

  ghost predicate ReqsOk(s: State, x: nat, k: int) {
    forall i :: 0 <= i < |s.reqs| ==> ReqExcept(s, i, x, k)
  }

  /** ELS callbacks refer to other requests, and never to one that itself waits for an ELS. */
  ghost predicate TargetsOk(s: State) {
    forall i :: 0 <= i < |s.reqs| && Target(s.reqs[i]).Some? ==>
      var t := Target(s.reqs[i]).value; t < |s.reqs| && t != i && !ElsWaiting(s.reqs[t])
  }

  /** A request that has a command is the one the command's SCp.ptr names. */
  ghost predicate ScpOk(s: State) {
    forall i :: 0 <= i < |s.reqs| && s.reqs[i].scCmd.Some? ==>
      s.reqs[i].scCmd.value in s.scp && s.scp[s.reqs[i].scCmd.value] == i
  }

  /** The free count is exact, nothing is lost between pool and ports, and the reserve is kept. */
  ghost predicate FreeOk(s: State) {
    && s.freeCnt == Count(s.reqs, IsFree())
    && s.freeCnt + Sum(s.active) == |s.reqs|
    && s.freeCnt >= RESERVED_TASKS
  }

  /** The count of every port is exact and within its limit. */
  ghost predicate PortsOk(s: State) {
    && (forall p :: 0 <= p < |s.active| ==>
          s.active[p] == Count(s.reqs, OnPort(p)) && s.active[p] <= RW_TASKS_PER_CONNECTION)
    && (forall i :: 0 <= i < |s.reqs| && s.reqs[i].fcport.Some? ==> s.reqs[i].fcport.value < |s.active|)
  }

  ghost predicate PoolOk(s: State) { FreeOk(s) && PortsOk(s) }

  /** A command is given back at most as often as it was accepted, and once less while held. */
  ghost predicate LogOk(s: State) {
    forall c: nat :: Count(s.log, GivesBack(c)) + One(Holds(s, c)) <= Count(s.log, Accepts(c))
  }

  ghost predicate InvExcept(s: State, x: nat, k: int) {
    WellFormed(s) && ReqsOk(s, x, k) && TargetsOk(s) && ScpOk(s) && PoolOk(s) && LogOk(s)
  }

  ghost predicate Sound(s: State) { InvExcept(s, 0, 0) }

  /** What holds between any two steps. */
  ghost predicate Inv(s: State) { Sound(s) && s.running.None? }

  lemma {:induction false} Exempting(s: State, x: nat, y: nat)
    requires InvExcept(s, x, 0)
    ensures InvExcept(s, y, 0)
  {
    forall i | 0 <= i < |s.reqs| ensures ReqExcept(s, i, y, 0) {
      assert ReqExcept(s, i, x, 0);
    }
  }

  /** What the invariant says of one request. */
  lemma {:induction false} ReqAt(s: State, x: nat)
    requires Sound(s) && x < NUM_TASKS
    ensures ReqOk(s.reqs[x], Incoming(s, x)) && (s.reqs[x].scCmd.Some? ==> Token(s, x))
  {
    assert ReqExcept(s, x, 0, 0);
  }

  // ---- Storing a request keeps the parts

  /** How the exempt reference count changes when `i` stops or keeps referring to `x`. */
  ghost predicate Retargets(s: State, i: nat, r: IoReq, x: nat, k: int, k': int)
    requires i < |s.reqs|
  {
    if Target(r) == Target(s.reqs[i]) then i == x || k' == k
    else i != x && Target(r).None? && Target(s.reqs[i]) == Some(x) && k' == k - 1
  }

  lemma {:induction false} StoreIncoming(s: State, i: nat, r: IoReq, x: nat, k: int, k': int, j: nat)
    requires TargetsOk(s) && i < |s.reqs| && Retargets(s, i, r, x, k, k')
    ensures j != i ==>
      Incoming(Store(s, i, r), j) - Exempt(j, x, k') == Incoming(s, j) - Exempt(j, x, k)
    ensures Incoming(Store(s, i, r), i) == Incoming(s, i)
  {
    CountUpdate(s.reqs, Refers(j), i, r);
    CountUpdate(s.reqs, Refers(i), i, r);
  }

  lemma {:induction false} StoreOther(s: State, i: nat, r: IoReq, x: nat, k: int, k': int, j: nat)
    requires ReqsOk(s, x, k) && i < |s.reqs| && j < |s.reqs| && j != i
    requires Incoming(Store(s, i, r), j) - Exempt(j, x, k') == Incoming(s, j) - Exempt(j, x, k)
    ensures ReqExcept(Store(s, i, r), j, x, k')
  {
    assert ReqExcept(s, j, x, k);
    assert Store(s, i, r).reqs[j] == s.reqs[j];
  }

  lemma {:induction false} StoreReqs(s: State, i: nat, r: IoReq, x: nat, k: int, k': int)
    requires ReqsOk(s, x, k) && TargetsOk(s) && i < |s.reqs| && Retargets(s, i, r, x, k, k')
    requires ReqOk(r, Incoming(s, i) - Exempt(i, x, k'))
    ensures ReqsOk(Store(s, i, r), x, k')
  {
    var s' := Store(s, i, r);
    forall j | 0 <= j < |s'.reqs| ensures ReqExcept(s', j, x, k') {
      StoreIncoming(s, i, r, x, k, k', j);
      if j != i { StoreOther(s, i, r, x, k, k', j); }
    }
  }

  lemma {:induction false} StoreTargets(s: State, i: nat, r: IoReq)
    requires TargetsOk(s) && i < |s.reqs| && Follows(s.reqs[i], r)
    requires Target(r) == Target(s.reqs[i]) || Target(r).None?
    ensures TargetsOk(Store(s, i, r))
  {
    var s' := Store(s, i, r);
    forall j | 0 <= j < |s'.reqs| && Target(s'.reqs[j]).Some?
      ensures var t := Target(s'.reqs[j]).value; t < |s'.reqs| && t != j && !ElsWaiting(s'.reqs[t])
    {
      assert Target(s.reqs[j]) == Target(s'.reqs[j]);
    }
  }

  lemma {:induction false} StoreFree(s: State, i: nat, r: IoReq)
    requires PoolOk(s) && i < |s.reqs| && Follows(s.reqs[i], r) && (s.reqs[i].alloc <==> s.reqs[i].fcport.Some?)
    ensures FreeOk(Store(s, i, r))
  {
    CountUpdate(s.reqs, IsFree(), i, r);
    if s.reqs[i].alloc && !r.alloc {
      SumUpdate(s.active, s.reqs[i].fcport.value, s.active[s.reqs[i].fcport.value] - 1);
    }
  }

  lemma {:induction false} StorePort(s: State, i: nat, r: IoReq, p: nat)
    requires i < |s.reqs| && Follows(s.reqs[i], r) && (s.reqs[i].alloc <==> s.reqs[i].fcport.Some?) && p < |s.active|
    requires s.active[p] == Count(s.reqs, OnPort(p))
    ensures var s' := Store(s, i, r); s'.active[p] == Count(s'.reqs, OnPort(p)) && s'.active[p] <= s.active[p]
  {
    CountUpdate(s.reqs, OnPort(p), i, r);
  }

  lemma {:induction false} StorePorts(s: State, i: nat, r: IoReq)
    requires PortsOk(s) && i < |s.reqs| && Follows(s.reqs[i], r) && (s.reqs[i].alloc <==> s.reqs[i].fcport.Some?)
    ensures PortsOk(Store(s, i, r))
  {
    var s' := Store(s, i, r);
    forall p | 0 <= p < |s'.active| ensures s'.active[p] == Count(s'.reqs, OnPort(p)) && s'.active[p] <= s.active[p] {
      StorePort(s, i, r, p);
    }
    assert forall j :: 0 <= j < |s'.reqs| && j != i ==> s'.reqs[j] == s.reqs[j];
  }

  lemma {:induction false} StoreLog(s: State, i: nat, r: IoReq)
    requires LogOk(s) && i < |s.reqs| && Follows(s.reqs[i], r)
    ensures LogOk(Store(s, i, r))
  {
    var s' := Store(s, i, r);
    forall c: nat ensures Count(s'.log, GivesBack(c)) + One(Holds(s', c)) <= Count(s'.log, Accepts(c)) {
      assert Holds(s', c) ==> Holds(s, c);
      assert Count(s.log, GivesBack(c)) + One(Holds(s, c)) <= Count(s.log, Accepts(c));
    }
  }

  /** All parts but the reference counts. */
  ghost predicate RestOk(s: State) { TargetsOk(s) && ScpOk(s) && PoolOk(s) && LogOk(s) }

  lemma {:induction false} StoreRest(s: State, i: nat, r: IoReq)
    requires RestOk(s) && i < |s.reqs| && Follows(s.reqs[i], r) && (s.reqs[i].alloc <==> s.reqs[i].fcport.Some?)
    requires Target(r) == Target(s.reqs[i]) || Target(r).None?
    ensures RestOk(Store(s, i, r))
  {
    StoreTargets(s, i, r);
    StoreFree(s, i, r);
    StorePorts(s, i, r);
    StoreLog(s, i, r);
  }

  lemma {:induction false} StoreInv(s: State, i: nat, r: IoReq, x: nat, k: int, k': int)
    requires InvExcept(s, x, k) && i < NUM_TASKS && Follows(s.reqs[i], r) && Retargets(s, i, r, x, k, k')
    requires ReqOk(r, Incoming(s, i) - Exempt(i, x, k'))
    ensures InvExcept(Store(s, i, r), x, k')
  {
    assert ReqExcept(s, i, x, k);
    StoreReqs(s, i, r, x, k, k');
    StoreRest(s, i, r);
  }

  /** A step changes the exempt request itself. */
  lemma {:induction false} StoreExempt(s: State, x: nat, r: IoReq, k: int, k': int)
    requires InvExcept(s, x, k) && x < NUM_TASKS && Keeps(s.reqs[x], r, Incoming(s, x) - k')
    ensures InvExcept(Store(s, x, r), x, k') && (k' == 0 ==> Sound(Store(s, x, r)))
  {
    StoreInv(s, x, r, x, k, k');
    if k' == 0 { Exempting(Store(s, x, r), x, 0); }
  }

  lemma {:induction false} DropExempt(s: State, x: nat, k: int)
    requires InvExcept(s, x, k) && x < NUM_TASKS && Incoming(s, x) > k
    ensures var s' := Store(s, x, Put(s.reqs[x])); InvExcept(s', x, k + 1) && (k == -1 ==> Sound(s'))
  {
    var r := Put(s.reqs[x]);
    assert Keeps(s.reqs[x], r, Incoming(s, x) - (k + 1)) by {
      assert ReqExcept(s, x, x, k);
      DropKeeps(s.reqs[x], Incoming(s, x) - k);
    }
    StoreExempt(s, x, r, k, k + 1);
  }

  /** The common case: a handler touched one request only. */
  lemma {:induction false} StoreKeeps(s: State, i: nat, r: IoReq)
    requires Sound(s) && i < NUM_TASKS && Keeps(s.reqs[i], r, Incoming(s, i))
    ensures Sound(Store(s, i, r))
  {
    StoreInv(s, i, r, 0, 0, 0);
  }

  lemma {:induction false} FinishKeeps(s: State, i: nat, o: Outcome, normal: bool)
    requires Sound(s) && i < NUM_TASKS && Returns(s.reqs[i], o, Incoming(s, i))
    ensures Sound(Finish(s, i, o, normal))
  {
    StoreKeeps(s, i, o.req);
    if o.done.Some? {
      var s1 := Store(s, i, o.req);
      var s' := Finish(s, i, o, normal);
      assert ReqsOk(s', 0, 0) by {
        forall j | 0 <= j < |s'.reqs| ensures ReqExcept(s', j, 0, 0) {
          assert ReqExcept(s1, j, 0, 0);
        }
      }
      assert TargetsOk(s') && PoolOk(s');
      FinishScp(s, i, o, normal);
      FinishLog(s, i, o, normal);
    }
  }

  lemma {:induction false} FinishScp(s: State, i: nat, o: Outcome, normal: bool)
    requires ScpOk(s) && i < |s.reqs| && GivesUp(s.reqs[i], o) && o.done.Some?
    ensures ScpOk(Finish(s, i, o, normal))
  {
    var s' := Finish(s, i, o, normal);
    assert s.scp[o.done.value] == i;
    forall j | 0 <= j < |s'.reqs| && s'.reqs[j].scCmd.Some?
      ensures s'.reqs[j].scCmd.value in s'.scp && s'.scp[s'.reqs[j].scCmd.value] == j
    {
      assert s.reqs[j].scCmd == s'.reqs[j].scCmd;
    }
  }

  lemma {:induction false} FinishLog(s: State, i: nat, o: Outcome, normal: bool)
    requires ScpOk(s) && LogOk(s) && i < |s.reqs| && GivesUp(s.reqs[i], o) && o.done.Some?
    ensures LogOk(Finish(s, i, o, normal))
  {
    var s' := Finish(s, i, o, normal);
    forall c: nat ensures Count(s'.log, GivesBack(c)) + One(Holds(s', c)) <= Count(s'.log, Accepts(c)) {
      var l := Returned(o.done.value, i, s.reqs[i].life, normal);
      CountAppend(s.log, GivesBack(c), l);
      CountAppend(s.log, Accepts(c), l);
      assert Count(s.log, GivesBack(c)) + One(Holds(s, c)) <= Count(s.log, Accepts(c));
      assert Holds(s, o.done.value) && !Holds(s', o.done.value);
      assert Holds(s', c) ==> Holds(s, c);
    }
  }

  // ---- Taking a free request

  /** Request `n` may be taken for `port`. */
  predicate MayTake(s: State, n: nat, port: nat) {
    && n < |s.reqs| && !s.reqs[n].alloc && port < |s.active|
    && s.active[port] < RW_TASKS_PER_CONNECTION && s.freeCnt > RESERVED_TASKS
  }

  lemma {:induction false} FreeHasNoRefs(s: State, n: nat, x: nat, k: int)
    requires InvExcept(s, x, k) && n < NUM_TASKS && !s.reqs[n].alloc && (n == x ==> k == 0)
    ensures Incoming(s, n) == 0 && OwnRefs(s.reqs[n]) == 0 && ReqOk(s.reqs[n], 0)
    ensures forall i :: 0 <= i < |s.reqs| ==> Target(s.reqs[i]) != Some(n)
  {
    assert ReqExcept(s, n, x, k);
    CountZero(s.reqs, Refers(n));
    assert forall i :: 0 <= i < |s.reqs| ==> !Refers(n)(s.reqs[i]);
  }

  /** What a newly taken request may look like. `x` is the request it refers to, if any. */
  ghost predicate Takable(s: State, n: nat, port: nat, r: IoReq, x: nat) {
    && MayTake(s, n, port) && x < |s.reqs| && r.alloc && r.fcport == Some(port) && ReqOk(r, 0)
    && (Target(r) == None || (Target(r) == Some(x) && x != n && !ElsWaiting(s.reqs[x])))
  }

  lemma {:induction false} TakeReqs(s: State, n: nat, port: nat, r: IoReq, x: nat, k: int)
    requires WellFormed(s) && ReqsOk(s, x, k) && Takable(s, n, port, r, x) && Incoming(s, n) == 0 && (n == x ==> k == 0)
    ensures ReqsOk(Take(s, n, port, r), x, k + One(Target(r).Some?))
  {
    var s', k' := Take(s, n, port, r), k + One(Target(r).Some?);
    forall j | 0 <= j < |s'.reqs| ensures ReqExcept(s', j, x, k') {
      TakeIncoming(s, n, port, r, x, j);
      if j != n {
        assert ReqExcept(s, j, x, k);
        assert s'.reqs[j] == s.reqs[j];
      }
    }
  }

  lemma {:induction false} TakeIncoming(s: State, n: nat, port: nat, r: IoReq, x: nat, j: nat)
    requires WellFormed(s) && Takable(s, n, port, r, x)
    ensures Incoming(Take(s, n, port, r), j) == Incoming(s, j) + One(Target(r) == Some(j))
  {
    CountUpdate(s.reqs, Refers(j), n, r);
  }

  lemma {:induction false} TakeTargets(s: State, n: nat, port: nat, r: IoReq, x: nat)
    requires WellFormed(s) && TargetsOk(s) && Takable(s, n, port, r, x)
    requires forall i :: 0 <= i < |s.reqs| ==> Target(s.reqs[i]) != Some(n)
    ensures TargetsOk(Take(s, n, port, r))
  {
    var s' := Take(s, n, port, r);
    forall j | 0 <= j < |s'.reqs| && Target(s'.reqs[j]).Some?
      ensures var t := Target(s'.reqs[j]).value; t < |s'.reqs| && t != j && !ElsWaiting(s'.reqs[t])
    {
      if j != n { assert Target(s.reqs[j]) == Target(s'.reqs[j]); }
    }
  }

  lemma {:induction false} TakePool(s: State, n: nat, port: nat, r: IoReq)
    requires WellFormed(s) && PoolOk(s) && MayTake(s, n, port) && s.reqs[n].fcport.None?
    requires r.alloc && r.fcport == Some(port)
    ensures PoolOk(Take(s, n, port, r))
  {
    var s' := Take(s, n, port, r);
    CountUpdate(s.reqs, IsFree(), n, r);
    SumUpdate(s.active, port, s.active[port] + 1);
    forall p | 0 <= p < |s.active|
      ensures s'.active[p] == Count(s'.reqs, OnPort(p)) && s'.active[p] <= RW_TASKS_PER_CONNECTION
    {
      TakePort(s, n, port, r, p);
    }
    forall i | 0 <= i < |s'.reqs| && s'.reqs[i].fcport.Some? ensures s'.reqs[i].fcport.value < |s'.active| {
      if i != n { assert s'.reqs[i] == s.reqs[i]; }
    }
  }

  lemma {:induction false} TakePort(s: State, n: nat, port: nat, r: IoReq, p: nat)
    requires WellFormed(s) && MayTake(s, n, port) && s.reqs[n].fcport.None? && r.fcport == Some(port) && p < |s.active|
    requires s.active[p] == Count(s.reqs, OnPort(p)) && s.active[p] <= RW_TASKS_PER_CONNECTION
    ensures var s' := Take(s, n, port, r);
            s'.active[p] == Count(s'.reqs, OnPort(p)) && s'.active[p] <= RW_TASKS_PER_CONNECTION
  {
    CountUpdate(s.reqs, OnPort(p), n, r);
  }

  lemma {:induction false} TakeScp(s: State, n: nat, port: nat, r: IoReq)
    requires WellFormed(s) && ScpOk(s) && LogOk(s) && n < NUM_TASKS && port < |s.active|
    requires s.reqs[n].scCmd.None? && r.scCmd.None?
    ensures ScpOk(Take(s, n, port, r)) && LogOk(Take(s, n, port, r))
  {
    TouchFreeScp(s, Take(s, n, port, r), n, r, 0);
  }

  lemma {:induction false} TakeInv(s: State, n: nat, port: nat, r: IoReq, x: nat, k: int)
    requires InvExcept(s, x, k) && Takable(s, n, port, r, x) && r.scCmd.None? && (n == x ==> k == 0)
    ensures InvExcept(Take(s, n, port, r), x, k + One(Target(r).Some?))
  {
    FreeHasNoRefs(s, n, x, k);
    TakeReqs(s, n, port, r, x, k);
    TakeTargets(s, n, port, r, x);
    TakePool(s, n, port, r);
    TakeScp(s, n, port, r);
  }

  // ---- A request that was taken and given back in one step

  /** The free request `n` now looks like `r`; at most the cursor and SCp.ptr of `c` moved besides. */
  ghost predicate Touched(s: State, s': State, n: nat, r: IoReq, c: nat) {
    && n < |s.reqs| && !s.reqs[n].alloc && !r.alloc && ReqOk(r, 0) && s'.idx < NUM_TASKS
    && s'.reqs == s.reqs[n := r] && s'.freeCnt == s.freeCnt && s'.active == s.active && s'.log == s.log
    && s'.running == s.running && (s'.scp == s.scp || (s'.scp == s.scp[c := n] && !Holds(s, c)))
  }

  lemma {:induction false} TouchFree(s: State, s': State, n: nat, r: IoReq, c: nat, x: nat, k: int)
    requires InvExcept(s, x, k) && Touched(s, s', n, r, c) && (n == x ==> k == 0)
    ensures InvExcept(s', x, k)
  {
    FreeHasNoRefs(s, n, x, k);
    TouchFreeReqs(s, s', n, r, c, x, k);
    TouchFreePool(s, s', n, r, c);
    TouchFreeScp(s, s', n, r, c);
  }

  lemma {:induction false} TouchFreeReqs(s: State, s': State, n: nat, r: IoReq, c: nat, x: nat, k: int)
    requires ReqsOk(s, x, k) && TargetsOk(s) && Touched(s, s', n, r, c) && Incoming(s, n) == 0 && (n == x ==> k == 0)
    requires forall i :: 0 <= i < |s.reqs| ==> Target(s.reqs[i]) != Some(n)
    ensures ReqsOk(s', x, k) && TargetsOk(s')
  {
    forall j | 0 <= j < |s'.reqs| ensures ReqExcept(s', j, x, k) {
      CountUpdate(s.reqs, Refers(j), n, r);
      if j != n { assert ReqExcept(s, j, x, k); }
    }
    forall j | 0 <= j < |s'.reqs| && Target(s'.reqs[j]).Some?
      ensures var t := Target(s'.reqs[j]).value; t < |s'.reqs| && t != j && !ElsWaiting(s'.reqs[t])
    {
      assert Target(s.reqs[j]) == Target(s'.reqs[j]);
    }
  }

  lemma {:induction false} TouchFreePool(s: State, s': State, n: nat, r: IoReq, c: nat)
    requires PoolOk(s) && Touched(s, s', n, r, c) && ReqOk(s.reqs[n], 0)
    ensures PoolOk(s')
  {
    CountUpdate(s.reqs, IsFree(), n, r);
    forall p | 0 <= p < |s.active| ensures s'.active[p] == Count(s'.reqs, OnPort(p)) {
      CountUpdate(s.reqs, OnPort(p), n, r);
    }
  }

  lemma {:induction false} TouchFreeScp(s: State, s': State, n: nat, r: IoReq, c: nat)
    requires ScpOk(s) && LogOk(s) && n < |s.reqs| && r.scCmd.None?
    requires s'.reqs == s.reqs[n := r] && s'.log == s.log
    requires s'.scp == s.scp || (s'.scp == s.scp[c := n] && !Holds(s, c))
    ensures ScpOk(s') && LogOk(s')
  {
    forall j | 0 <= j < |s'.reqs| && s'.reqs[j].scCmd.Some?
      ensures s'.reqs[j].scCmd.value in s'.scp && s'.scp[s'.reqs[j].scCmd.value] == j
    {
      assert s'.reqs[j] == s.reqs[j];
      assert Holds(s, s.reqs[j].scCmd.value);
    }
    forall d: nat ensures Count(s'.log, GivesBack(d)) + One(Holds(s', d)) <= Count(s'.log, Accepts(d)) {
      assert Count(s.log, GivesBack(d)) + One(Holds(s, d)) <= Count(s.log, Accepts(d));
      if Holds(s', d) { assert s.reqs[s'.scp[d]].scCmd == Some(d); }
    }
  }

  /** Taking a request and releasing it leaves the counters as they were. */
  lemma {:induction false} GivenBack(s: State, n: nat, port: nat, r: IoReq, r': IoReq)
    requires WellFormed(s) && MayTake(s, n, port) && r.fcport == Some(port) && r'.life == r.life + 1
    ensures var s1 := Take(s, n, port, r); var s' := Store(s1, n, r');
            && s'.reqs == s.reqs[n := r'] && s'.freeCnt == s.freeCnt && s'.active == s.active
            && s'.log == s.log && s'.running == s.running && s'.scp == s.scp && s'.idx < NUM_TASKS
  {}

  // ---- The running handler of an ELS request

  lemma {:induction false} SameRest(s: State, s': State)
    requires RestOk(s)
    requires s'.reqs == s.reqs && s'.freeCnt == s.freeCnt && s'.active == s.active && s'.scp == s.scp && s'.log == s.log
    ensures RestOk(s')
  {
    forall c: nat ensures Count(s'.log, GivesBack(c)) + One(Holds(s', c)) <= Count(s'.log, Accepts(c)) {
      assert Holds(s', c) == Holds(s, c);
    }
  }

  lemma {:induction false} StartIncoming(s: State, y: nat, r: IoReq, j: nat)
    requires s.running.None? && y < |s.reqs| && Target(r) == Target(s.reqs[y])
    ensures Incoming(Store(s.(running := Some(y)), y, r), j) == Incoming(s, j) + One(j == y)
  {
    CountUpdate(s.reqs, Refers(j), y, r);
  }

  lemma {:induction false} StartReqs(s: State, y: nat, r: IoReq)
    requires ReqsOk(s, 0, 0) && s.running.None? && y < |s.reqs|
    requires ReqOk(r, Incoming(s, y) + 1) && Target(r) == Target(s.reqs[y])
    ensures ReqsOk(Store(s.(running := Some(y)), y, r), 0, 0)
  {
    var s' := Store(s.(running := Some(y)), y, r);
    forall j | 0 <= j < |s'.reqs| ensures ReqExcept(s', j, 0, 0) {
      StartIncoming(s, y, r, j);
      if j != y { assert ReqExcept(s, j, 0, 0) && s'.reqs[j] == s.reqs[j]; }
    }
  }

  /** The handler takes its reference. */
  lemma {:induction false} RunStarts(s: State, y: nat, r: IoReq)
    requires Inv(s) && y < NUM_TASKS && Keeps(s.reqs[y], r, Incoming(s, y) + 1)
    ensures Sound(Store(s.(running := Some(y)), y, r))
  {
    assert ReqExcept(s, y, 0, 0);
    StartReqs(s, y, r);
    StoreRest(s, y, r);
    SameRest(Store(s, y, r), Store(s.(running := Some(y)), y, r));
  }

  lemma {:induction false} EndReqs(s: State, y: nat, r: IoReq, x: nat, k: int)
    requires ReqsOk(s, x, k) && TargetsOk(s) && y < |s.reqs| && Retargets(s, y, r, x, k, 0)
    requires (s.running.None? || s.running == Some(y)) && (y == x ==> k == 0)
    requires ReqOk(r, Incoming(s, y) - One(s.running == Some(y)))
    ensures ReqsOk(Settle(s, y, r), 0, 0)
  {
    var s' := Settle(s, y, r);
    forall j | 0 <= j < |s'.reqs| ensures ReqExcept(s', j, 0, 0) {
      StoreIncoming(s, y, r, x, k, 0, j);
      assert Incoming(s', j) == Incoming(Store(s, y, r), j) - One(s.running == Some(j));
      if j != y { assert ReqExcept(s, j, x, k); }
    }
  }

  /** The handler ends; `y` may stop referring to `x`. */
  lemma {:induction false} RunEnds(s: State, y: nat, r: IoReq, x: nat, k: int)
    requires InvExcept(s, x, k) && y < NUM_TASKS && Follows(s.reqs[y], r) && Retargets(s, y, r, x, k, 0)
    requires (s.running.None? || s.running == Some(y)) && (y == x ==> k == 0)
    requires ReqOk(r, Incoming(s, y) - One(s.running == Some(y)))
    ensures Inv(Settle(s, y, r))
  {
    assert ReqExcept(s, y, x, k);
    EndReqs(s, y, r, x, k);
    StoreRest(s, y, r);
    SameRest(Store(s, y, r), Settle(s, y, r));
  }

  // ---- What an allocation depends on

  /** Requests are taken from the pool alike. */
  ghost predicate SameSlots(s: State, s': State) {
    && |s'.reqs| == |s.reqs| && s'.idx == s.idx && s'.freeCnt == s.freeCnt && s'.active == s.active
    && forall i :: 0 <= i < |s.reqs| ==> SameHold(s.reqs[i], s'.reqs[i])
  }

  ghost predicate SameHold(r: IoReq, r': IoReq) {
    r'.alloc == r.alloc && r'.life == r.life && r'.fcport == r.fcport && r'.scCmd == r.scCmd
  }

  lemma {:induction false} ScanSame(s: State, s': State, tried: nat)
    requires WellFormed(s) && SameSlots(s, s') && tried <= NUM_TASKS
    ensures ScanFrom(s'.reqs, s.idx, tried) == ScanFrom(s.reqs, s.idx, tried)
    decreases NUM_TASKS - tried
  {
    if tried < NUM_TASKS {
      assert SameHold(s.reqs[At(s.idx, tried)], s'.reqs[At(s.idx, tried)]);
      ScanSame(s, s', tried + 1);
    }
  }

  lemma {:induction false} SlotsSame(s: State, s': State, port: nat, e: Env)
    requires WellFormed(s) && SameSlots(s, s')
    ensures FreeSlot(s', port, e) == FreeSlot(s, port, e)
  {
    ScanSame(s, s', 0);
  }
}
