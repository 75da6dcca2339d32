/** Several threads inside qedf_alloc_cmd and qedf_release_cmd at once (qedf_io.c:331-380, 463-479). Both limits are
    tested before the pool lock is taken, and both counters move outside it. */
module AllocRace {
  import opened Counting
  import opened Exchange

  /** A pool slot: free, taken under the lock, also counted in num_active_ios, also in free_list_cnt and in use;
      or on its way back, in neither counter's favour until the lock is taken again. */
  datatype Slot = Free | Taken(port: nat) | Counted(port: nat) | Owned(port: nat) | Returning(port: nat) | Leaving

  /** A thread is outside, has passed the test of the port, or that of the pool, or works on a slot. */
  datatype Phase = Outside | PortOk(port: nat) | Passed(port: nat) | Holding(slot: nat)

  datatype Race = Race(slots: seq<Slot>, free: int, active: seq<int>, threads: seq<Phase>)

  datatype Move =
    | TestPort(i: nat, port: nat)  // qedf_io.c:331-338
    | TestPool(i: nat)             // qedf_io.c:340-346
    | Refuse(i: nat)
    | Lock(i: nat, slot: nat)      // qedf_io.c:348-371, with the slot that the scan finds
    | NoSlot(i: nat)               // qedf_io.c:360-363
    | CountActive(i: nat)          // qedf_io.c:374
    | CountFree(i: nat)            // qedf_io.c:377
    | Release(i: nat, slot: nat)   // qedf_io.c:463
    | Uncount(i: nat)              // qedf_io.c:464
    | Unlock(i: nat)               // qedf_io.c:476-479

  predicate Holds(s: Race, i: nat) { i < |s.threads| && s.threads[i].Holding? && s.threads[i].slot < |s.slots| }

  predicate May(s: Race, t: Move) {
    match t
    case TestPort(i, port) =>
      i < |s.threads| && s.threads[i].Outside? && port < |s.active| && s.active[port] < RW_TASKS_PER_CONNECTION
    case TestPool(i) => i < |s.threads| && s.threads[i].PortOk? && s.free > RESERVED_TASKS
    case Refuse(i) => i < |s.threads| && s.threads[i].PortOk? && s.free <= RESERVED_TASKS
    case Lock(i, slot) => i < |s.threads| && s.threads[i].Passed? && slot < |s.slots| && s.slots[slot].Free?
    case NoSlot(i) =>
      i < |s.threads| && s.threads[i].Passed? && forall x :: 0 <= x < |s.slots| ==> !s.slots[x].Free?
    case CountActive(i) => Holds(s, i) && s.slots[s.threads[i].slot].Taken?
    case CountFree(i) => Holds(s, i) && s.slots[s.threads[i].slot].Counted?
    case Release(i, slot) => i < |s.threads| && s.threads[i].Outside? && slot < |s.slots| && s.slots[slot].Owned?
    case Uncount(i) => Holds(s, i) && s.slots[s.threads[i].slot].Returning?
    case Unlock(i) => Holds(s, i) && s.slots[s.threads[i].slot].Leaving?
  }

  function Bump(active: seq<int>, port: nat, d: int): (a: seq<int>)
    ensures |a| == |active|
  {
    if port < |active| then active[port := active[port] + d] else active
  }

  /** Slot `x` and thread `i` move on. */
  function Moved(s: Race, x: nat, v: Slot, i: nat, p: Phase): (s': Race)
    requires x < |s.slots| && i < |s.threads|
  {
    s.(slots := s.slots[x := v], threads := s.threads[i := p])
  }

  function Next(s: Race, t: Move): (s': Race)
    requires May(s, t)
  {
    match t
    case TestPort(i, port) => s.(threads := s.threads[i := PortOk(port)])
    case TestPool(i) => s.(threads := s.threads[i := Passed(s.threads[i].port)])
    case Refuse(i) => s.(threads := s.threads[i := Outside])
    case Lock(i, slot) => Moved(s, slot, Taken(s.threads[i].port), i, Holding(slot))
    case NoSlot(i) => s.(threads := s.threads[i := Outside])
    case CountActive(i) =>
      var x := s.threads[i].slot;
      var p := s.slots[x].port;
      Moved(s, x, Counted(p), i, Holding(x)).(active := Bump(s.active, p, 1))
    case CountFree(i) =>
      var x := s.threads[i].slot;
      Moved(s, x, Owned(s.slots[x].port), i, Outside).(free := s.free - 1)
    case Release(i, slot) => Moved(s, slot, Returning(s.slots[slot].port), i, Holding(slot)).(free := s.free + 1)
    case Uncount(i) =>
      var x := s.threads[i].slot;
      Moved(s, x, Leaving, i, Holding(x)).(active := Bump(s.active, s.slots[x].port, -1))
    case Unlock(i) => Moved(s, s.threads[i].slot, Free, i, Outside)
  }

  function Idle(ports: nat, k: nat): (s: Race) {
    Race(seq(NUM_TASKS, _ => Free), NUM_TASKS, seq(ports, _ => 0), seq(k, _ => Outside))
  }

  // ---- What every move keeps

  function IsFree(): (p: Slot -> bool) { (v: Slot) => v.Free? }
  function IsOwned(): (p: Slot -> bool) { (v: Slot) => v.Owned? }
  function InHand(): (p: Slot -> bool) { (v: Slot) => !v.Free? && !v.Owned? }
  function TakenFor(port: nat): (p: Slot -> bool) { (v: Slot) => v == Taken(port) }
  function OnPort(port: nat): (p: Slot -> bool) {
    (v: Slot) => v == Counted(port) || v == Owned(port) || v == Returning(port)
  }

  function Holder(): (p: Phase -> bool) { (c: Phase) => c.Holding? }
  function Passer(): (p: Phase -> bool) { (c: Phase) => c.Passed? }
  function Waits(port: nat): (p: Phase -> bool) { (c: Phase) => c == PortOk(port) || c == Passed(port) }

  /** No slot is worked on by two threads. */
  ghost predicate HandsOk(s: Race) {
    && (forall i :: 0 <= i < |s.threads| && s.threads[i].Holding? ==>
          s.threads[i].slot < |s.slots| && InHand()(s.slots[s.threads[i].slot]))
    && (forall i, j :: 0 <= i < j < |s.threads| && s.threads[i].Holding? && s.threads[j].Holding? ==>
          s.threads[i].slot != s.threads[j].slot)
    && Count(s.slots, InHand()) == Count(s.threads, Holder())
  }

  /** free_list_cnt counts the slots that are not in use, and the threads inside leave that much of the reserve. */
  ghost predicate PoolOk(s: Race) {
    && |s.slots| == NUM_TASKS && s.free == NUM_TASKS - Count(s.slots, IsOwned())
    && s.free - Count(s.threads, Passer()) - Count(s.threads, Holder()) >= RESERVED_TASKS + 1 - |s.threads|
  }

  /** num_active_ios counts the slots of the port, and the threads inside add at most one each. */
  ghost predicate PortOkAt(s: Race, p: nat)
    requires p < |s.active|
  {
    && s.active[p] == Count(s.slots, OnPort(p))
    && s.active[p] + Count(s.threads, Waits(p)) + Count(s.slots, TakenFor(p))
         <= RW_TASKS_PER_CONNECTION - 1 + |s.threads|
  }

  ghost predicate PortsOk(s: Race) { forall p :: 0 <= p < |s.active| ==> PortOkAt(s, p) }

  ghost predicate Inv(s: Race) { HandsOk(s) && PoolOk(s) && PortsOk(s) }

  ghost predicate SameSize(s: Race, s': Race) { |s'.threads| == |s.threads| && |s'.active| == |s.active| }

  // ---- Counting

  lemma {:induction false} Apart(c: seq<Phase>, p: Phase -> bool, q: Phase -> bool)
    requires forall v :: !(p(v) && q(v))
    ensures Count(c, p) + Count(c, q) <= |c|
  {
    if |c| > 0 { Apart(c[..|c| - 1], p, q); }
  }

  lemma {:induction false} Within(c: seq<Slot>, p: Slot -> bool, q: Slot -> bool)
    requires forall v :: p(v) ==> q(v)
    ensures Count(c, p) <= Count(c, q)
  {
    if |c| > 0 { Within(c[..|c| - 1], p, q); }
  }

  /** Every slot is free, in use or in a thread's hands. */
  lemma {:induction false} Partition(c: seq<Slot>)
    ensures Count(c, IsFree()) + Count(c, InHand()) + Count(c, IsOwned()) == |c|
  {
    if |c| > 0 { Partition(c[..|c| - 1]); }
  }

  /** Threads that wait for `port` or have a slot for it. */
  lemma {:induction false} Crowd(s: Race, port: nat)
    requires HandsOk(s)
    ensures Count(s.threads, Waits(port)) + Count(s.slots, TakenFor(port)) <= |s.threads|
  {
    Within(s.slots, TakenFor(port), InHand());
    Apart(s.threads, Waits(port), Holder());
  }

  // ---- One move

  lemma {:induction false} ThreadMoves(s: Race, i: nat, v: Phase)
    requires HandsOk(s) && i < |s.threads| && !s.threads[i].Holding? && !v.Holding?
    ensures HandsOk(s.(threads := s.threads[i := v]))
  {
    CountUpdate(s.threads, Holder(), i, v);
  }

  /** A move that changes neither slots nor counters, of a thread that waits no more than before. */
  lemma {:induction false} PortsSame(s: Race, i: nat, v: Phase)
    requires PortsOk(s) && i < |s.threads| && forall p :: Waits(p)(v) ==> Waits(p)(s.threads[i])
    ensures PortsOk(s.(threads := s.threads[i := v]))
  {
    var s' := s.(threads := s.threads[i := v]);
    forall p | 0 <= p < |s'.active| ensures PortOkAt(s', p) {
      assert PortOkAt(s, p);
      CountUpdate(s.threads, Waits(p), i, v);
    }
  }

  lemma {:induction false} TestPortKeeps(s: Race, i: nat, port: nat)
    requires Inv(s) && May(s, TestPort(i, port))
    ensures Inv(Next(s, TestPort(i, port)))
  {
    var s' := Next(s, TestPort(i, port));
    ThreadMoves(s, i, PortOk(port));
    CountUpdate(s.threads, Holder(), i, PortOk(port));
    CountUpdate(s.threads, Passer(), i, PortOk(port));
    forall p | 0 <= p < |s'.active| ensures PortOkAt(s', p) {
      assert PortOkAt(s, p);
      CountUpdate(s.threads, Waits(p), i, PortOk(port));
      Crowd(s', p);
    }
  }

  lemma {:induction false} TestPoolKeeps(s: Race, i: nat)
    requires Inv(s) && May(s, TestPool(i))
    ensures Inv(Next(s, TestPool(i)))
  {
    var v := Passed(s.threads[i].port);
    ThreadMoves(s, i, v);
    CountUpdate(s.threads, Holder(), i, v);
    CountUpdate(s.threads, Passer(), i, v);
    Apart(s.threads[i := v], Passer(), Holder());
    PortsSame(s, i, v);
  }

  /** The thread goes away. */
  lemma {:induction false} GoesKeeps(s: Race, i: nat)
    requires Inv(s) && i < |s.threads| && !s.threads[i].Holding?
    ensures Inv(s.(threads := s.threads[i := Outside]))
  {
    ThreadMoves(s, i, Outside);
    CountUpdate(s.threads, Holder(), i, Outside);
    CountUpdate(s.threads, Passer(), i, Outside);
    PortsSame(s, i, Outside);
  }

  /** A thread takes a slot in hand. */
  lemma {:induction false} Grips(s: Race, x: nat, v: Slot, i: nat)
    requires HandsOk(s) && x < |s.slots| && i < |s.threads| && !InHand()(s.slots[x]) && InHand()(v)
    requires !s.threads[i].Holding?
    ensures HandsOk(Moved(s, x, v, i, Holding(x)))
  {
    CountUpdate(s.slots, InHand(), x, v);
    CountUpdate(s.threads, Holder(), i, Holding(x));
  }

  /** It goes on working on it. */
  lemma {:induction false} Works(s: Race, v: Slot, i: nat)
    requires HandsOk(s) && Holds(s, i) && InHand()(v)
    ensures HandsOk(Moved(s, s.threads[i].slot, v, i, Holding(s.threads[i].slot)))
    ensures s.threads[i := Holding(s.threads[i].slot)] == s.threads
  {
    CountUpdate(s.slots, InHand(), s.threads[i].slot, v);
    assert s.threads[i := Holding(s.threads[i].slot)] == s.threads;
  }

  /** It lets go. */
  lemma {:induction false} LetsGo(s: Race, v: Slot, i: nat)
    requires HandsOk(s) && Holds(s, i) && !InHand()(v)
    ensures HandsOk(Moved(s, s.threads[i].slot, v, i, Outside))
  {
    CountUpdate(s.slots, InHand(), s.threads[i].slot, v);
    CountUpdate(s.threads, Holder(), i, Outside);
  }

  /** How the counts of a port move with slot `x` and thread `i`. */
  lemma {:induction false} PortCounts(s: Race, x: nat, v: Slot, i: nat, c: Phase, p: nat)
    requires x < |s.slots| && i < |s.threads|
    ensures var s' := Moved(s, x, v, i, c);
            && Count(s'.slots, OnPort(p)) == Count(s.slots, OnPort(p)) - One(OnPort(p)(s.slots[x])) + One(OnPort(p)(v))
            && Count(s'.slots, TakenFor(p)) ==
                 Count(s.slots, TakenFor(p)) - One(TakenFor(p)(s.slots[x])) + One(TakenFor(p)(v))
            && Count(s'.threads, Waits(p)) ==
                 Count(s.threads, Waits(p)) - One(Waits(p)(s.threads[i])) + One(Waits(p)(c))
  {
    CountUpdate(s.slots, OnPort(p), x, v);
    CountUpdate(s.slots, TakenFor(p), x, v);
    CountUpdate(s.threads, Waits(p), i, c);
  }

  function One(b: bool): (n: nat) { if b then 1 else 0 }

  lemma {:induction false} PoolCounts(s: Race, x: nat, v: Slot, i: nat, c: Phase)
    requires x < |s.slots| && i < |s.threads|
    ensures var s' := Moved(s, x, v, i, c);
            && Count(s'.slots, IsOwned()) == Count(s.slots, IsOwned()) - One(s.slots[x].Owned?) + One(v.Owned?)
            && Count(s'.threads, Passer()) == Count(s.threads, Passer()) - One(s.threads[i].Passed?) + One(c.Passed?)
            && Count(s'.threads, Holder()) == Count(s.threads, Holder()) - One(s.threads[i].Holding?) + One(c.Holding?)
  {
    CountUpdate(s.slots, IsOwned(), x, v);
    CountUpdate(s.threads, Passer(), i, c);
    CountUpdate(s.threads, Holder(), i, c);
  }

  lemma {:induction false} LockKeeps(s: Race, i: nat, slot: nat)
    requires Inv(s) && May(s, Lock(i, slot))
    ensures Inv(Next(s, Lock(i, slot)))
  {
    var s', v := Next(s, Lock(i, slot)), Taken(s.threads[i].port);
    Grips(s, slot, v, i);
    PoolCounts(s, slot, v, i, Holding(slot));
    forall p | 0 <= p < |s'.active| ensures PortOkAt(s', p) {
      assert PortOkAt(s, p);
      PortCounts(s, slot, v, i, Holding(slot), p);
    }
  }

  lemma {:induction false} CountActiveKeeps(s: Race, i: nat)
    requires Inv(s) && May(s, CountActive(i))
    ensures Inv(Next(s, CountActive(i)))
  {
    var s', x := Next(s, CountActive(i)), s.threads[i].slot;
    var v := Counted(s.slots[x].port);
    Works(s, v, i);
    PoolCounts(s, x, v, i, Holding(x));
    forall p | 0 <= p < |s'.active| ensures PortOkAt(s', p) {
      assert PortOkAt(s, p);
      PortCounts(s, x, v, i, Holding(x), p);
    }
  }

  lemma {:induction false} CountFreeKeeps(s: Race, i: nat)
    requires Inv(s) && May(s, CountFree(i))
    ensures Inv(Next(s, CountFree(i)))
  {
    var s', x := Next(s, CountFree(i)), s.threads[i].slot;
    var v := Owned(s.slots[x].port);
    LetsGo(s, v, i);
    PoolCounts(s, x, v, i, Outside);
    forall p | 0 <= p < |s'.active| ensures PortOkAt(s', p) {
      assert PortOkAt(s, p);
      PortCounts(s, x, v, i, Outside, p);
    }
  }

  lemma {:induction false} ReleaseKeeps(s: Race, i: nat, slot: nat)
    requires Inv(s) && May(s, Release(i, slot))
    ensures Inv(Next(s, Release(i, slot)))
  {
    var s', v := Next(s, Release(i, slot)), Returning(s.slots[slot].port);
    Grips(s, slot, v, i);
    PoolCounts(s, slot, v, i, Holding(slot));
    forall p | 0 <= p < |s'.active| ensures PortOkAt(s', p) {
      assert PortOkAt(s, p);
      PortCounts(s, slot, v, i, Holding(slot), p);
    }
  }

  lemma {:induction false} UncountKeeps(s: Race, i: nat)
    requires Inv(s) && May(s, Uncount(i))
    ensures Inv(Next(s, Uncount(i)))
  {
    var s', x := Next(s, Uncount(i)), s.threads[i].slot;
    Works(s, Leaving, i);
    PoolCounts(s, x, Leaving, i, Holding(x));
    forall p | 0 <= p < |s'.active| ensures PortOkAt(s', p) {
      assert PortOkAt(s, p);
      PortCounts(s, x, Leaving, i, Holding(x), p);
    }
  }

  lemma {:induction false} UnlockKeeps(s: Race, i: nat)
    requires Inv(s) && May(s, Unlock(i))
    ensures Inv(Next(s, Unlock(i)))
  {
    var s', x := Next(s, Unlock(i)), s.threads[i].slot;
    LetsGo(s, Free, i);
    PoolCounts(s, x, Free, i, Outside);
    forall p | 0 <= p < |s'.active| ensures PortOkAt(s', p) {
      assert PortOkAt(s, p);
      PortCounts(s, x, Free, i, Outside, p);
    }
  }

  lemma {:induction false} MoveKeeps(s: Race, t: Move)
    requires Inv(s) && May(s, t)
    ensures Inv(Next(s, t)) && SameSize(s, Next(s, t))
  {
    match t
    case TestPort(i, port) => TestPortKeeps(s, i, port);
    case TestPool(i) => TestPoolKeeps(s, i);
    case Refuse(i) => GoesKeeps(s, i);
    case Lock(i, slot) => LockKeeps(s, i, slot);
    case NoSlot(i) => GoesKeeps(s, i);
    case CountActive(i) => CountActiveKeeps(s, i);
    case CountFree(i) => CountFreeKeeps(s, i);
    case Release(i, slot) => ReleaseKeeps(s, i, slot);
    case Uncount(i) => UncountKeeps(s, i);
    case Unlock(i) => UnlockKeeps(s, i);
  }

  // ---- Runs

  ghost predicate Admissible(s: Race, ts: seq<Move>)
    decreases |ts|
  {
    |ts| == 0 || (May(s, ts[0]) && Admissible(Next(s, ts[0]), ts[1..]))
  }

  ghost function After(s: Race, ts: seq<Move>): (s': Race)
    requires Admissible(s, ts)
    decreases |ts|
  {
    if |ts| == 0 then s else After(Next(s, ts[0]), ts[1..])
  }

  lemma {:induction false} RunKeeps(s: Race, ts: seq<Move>)
    requires Inv(s) && Admissible(s, ts)
    ensures Inv(After(s, ts)) && SameSize(s, After(s, ts))
    decreases |ts|
  {
    if |ts| > 0 {
      MoveKeeps(s, ts[0]);
      RunKeeps(Next(s, ts[0]), ts[1..]);
    }
  }

  lemma {:induction false} IdleInv(ports: nat, k: nat)
    requires k > 0
    ensures Inv(Idle(ports, k))
  {
    var s := Idle(ports, k);
    CountZero(s.slots, InHand());
    CountZero(s.slots, IsOwned());
    CountZero(s.threads, Holder());
    CountZero(s.threads, Passer());
    forall p | 0 <= p < |s.active| ensures PortOkAt(s, p) {
      CountZero(s.slots, OnPort(p));
      CountZero(s.slots, TakenFor(p));
      CountZero(s.threads, Waits(p));
    }
  }

  /** What `k` threads leave of the reserve. */
  function Spare(k: nat): (n: nat) { if k <= 16 then 17 - k else 0 }

  /** In every run of `k` threads: a port is counted at most 511 + k times and never more often than there are slots,
      free_list_cnt and the number of free slots never fall below what `k` threads leave of the reserve, and no slot
      is handed out twice. */
  lemma {:induction false} Bounded(ports: nat, k: nat, ts: seq<Move>, p: nat)
    requires k > 0 && p < ports && Admissible(Idle(ports, k), ts)
    ensures var s := After(Idle(ports, k), ts);
            && |s.active| == ports && s.active[p] <= 511 + k && s.active[p] <= 4096
            && s.free >= Spare(k) && Count(s.slots, IsFree()) >= Spare(k) && HandsOk(s)
  {
    var s := After(Idle(ports, k), ts);
    IdleInv(ports, k);
    RunKeeps(Idle(ports, k), ts);
    assert PortOkAt(s, p);
    Partition(s.slots);
  }

  /** After the run the scan of thread `i` finds nothing. */
  ghost predicate ScanFails(ports: nat, k: nat, ts: seq<Move>, i: nat) {
    Admissible(Idle(ports, k), ts) && May(After(Idle(ports, k), ts), NoSlot(i))
  }

  /** The scan can fail only if at least 18 threads are inside. */
  lemma {:induction false} ScanNeedsCrowd(ports: nat, k: nat, ts: seq<Move>, i: nat)
    requires k > 0 && ScanFails(ports, k, ts, i)
    ensures k >= 18
  {
    var s := After(Idle(ports, k), ts);
    IdleInv(ports, k);
    RunKeeps(Idle(ports, k), ts);
    Partition(s.slots);
    CountZero(s.slots, IsFree());
    CountZero(s.threads, Passer());
    assert Passer()(s.threads[i]);
  }

  // ---- The bounds are reached

  ghost predicate Reaches(s: Race, s': Race) {
    exists ts :: Admissible(s, ts) && After(s, ts) == s'
  }

  lemma {:induction false} Extended(s: Race, ts: seq<Move>, t: Move)
    requires Admissible(s, ts) && May(After(s, ts), t)
    ensures Admissible(s, ts + [t]) && After(s, ts + [t]) == Next(After(s, ts), t)
    decreases |ts|
  {
    if |ts| > 0 {
      Extended(Next(s, ts[0]), ts[1..], t);
      assert (ts + [t])[1..] == ts[1..] + [t];
    } else {
      assert ts + [t] == [t];
    }
  }

  lemma {:induction false} ReachesNext(s: Race, s1: Race, t: Move)
    requires Reaches(s, s1) && May(s1, t)
    ensures Reaches(s, Next(s1, t))
  {
    var ts :| Admissible(s, ts) && After(s, ts) == s1;
    Extended(s, ts, t);
  }

  /** The first `n` slots are in use; the first `p` of `k` threads have passed both tests for `port`. */
  ghost predicate Lined(s: Race, n: nat, k: nat, port: nat, p: nat) {
    && |s.slots| == NUM_TASKS && |s.threads| == k && p <= k && n <= NUM_TASKS && s.free == NUM_TASKS - n
    && port < |s.active|
    && (forall x :: 0 <= x < n ==> s.slots[x].Owned?) && (forall x :: n <= x < NUM_TASKS ==> s.slots[x] == Free)
    && (forall i :: 0 <= i < p ==> s.threads[i] == Passed(port)) && (forall i :: p <= i < k ==> s.threads[i] == Outside)
  }

  /** One more thread passes both tests. */
  lemma {:induction false} Passes(s0: Race, s: Race, n: nat, k: nat, port: nat, p: nat) returns (s': Race)
    requires Reaches(s0, s) && Lined(s, n, k, port, p) && p < k
    requires s.active[port] < RW_TASKS_PER_CONNECTION && n < NUM_TASKS - RESERVED_TASKS
    ensures Reaches(s0, s') && Lined(s', n, k, port, p + 1) && s'.active == s.active
  {
    var s1 := Next(s, TestPort(p, port));
    ReachesNext(s0, s, TestPort(p, port));
    ReachesNext(s0, s1, TestPool(p));
    s' := Next(s1, TestPool(p));
  }

  lemma {:induction false} AllPass(s0: Race, s: Race, n: nat, k: nat, port: nat, p: nat) returns (s': Race)
    requires Reaches(s0, s) && Lined(s, n, k, port, 0) && p <= k
    requires s.active[port] < RW_TASKS_PER_CONNECTION && n < NUM_TASKS - RESERVED_TASKS
    ensures Reaches(s0, s') && Lined(s', n, k, port, p) && s'.active == s.active
  {
    if p == 0 {
      s' := s;
    } else {
      var s1 := AllPass(s0, s, n, k, port, p - 1);
      s' := Passes(s0, s1, n, k, port, p - 1);
    }
  }

  /** The last of them takes a slot and counts it. */
  lemma {:induction false} Takes(s0: Race, s: Race, n: nat, k: nat, port: nat, p: nat) returns (s': Race)
    requires Reaches(s0, s) && Lined(s, n, k, port, p) && p > 0 && n < NUM_TASKS
    ensures Reaches(s0, s') && Lined(s', n + 1, k, port, p - 1) && s'.active == Bump(s.active, port, 1)
  {
    var s1 := Next(s, Lock(p - 1, n));
    var s2 := Next(s1, CountActive(p - 1));
    ReachesNext(s0, s, Lock(p - 1, n));
    ReachesNext(s0, s1, CountActive(p - 1));
    ReachesNext(s0, s2, CountFree(p - 1));
    s' := Next(s2, CountFree(p - 1));
  }

  lemma {:induction false} AllTake(s0: Race, s: Race, n: nat, k: nat, port: nat, p: nat, m: nat) returns (s': Race)
    requires Reaches(s0, s) && Lined(s, n, k, port, p) && m <= p && n + m <= NUM_TASKS
    ensures Reaches(s0, s') && Lined(s', n + m, k, port, p - m) && s'.active == Bump(s.active, port, m)
    decreases m
  {
    if m == 0 {
      s' := s;
    } else {
      var s1 := Takes(s0, s, n, k, port, p);
      s' := AllTake(s0, s1, n + 1, k, port, p - 1, m - 1);
    }
  }

  /** Slots in use on port `q` once the ports are filled up to `n`, one after the other. */
  function Load(n: nat, q: nat): (m: nat) {
    var below := RW_TASKS_PER_CONNECTION * q;
    if n <= below then 0 else if n - below >= RW_TASKS_PER_CONNECTION then RW_TASKS_PER_CONNECTION else n - below
  }

  ghost predicate Filled(s: Race, ports: nat, n: nat, k: nat) {
    && |s.active| == ports && (ports > 0 ==> Lined(s, n, k, 0, 0))
    && forall q :: 0 <= q < ports ==> s.active[q] == Load(n, q)
  }

  /** One thread after the other fills the pool, as far as the reserve and the ports allow. */
  lemma {:induction false} Fills(ports: nat, n: nat, k: nat) returns (s: Race)
    requires 0 < ports && n <= RW_TASKS_PER_CONNECTION * ports && n <= NUM_TASKS - RESERVED_TASKS && k > 0
    ensures Reaches(Idle(ports, k), s) && Filled(s, ports, n, k)
  {
    var s0 := Idle(ports, k);
    if n == 0 {
      s := s0;
      assert Admissible(s0, []) && After(s0, []) == s0;
    } else {
      var s1 := Fills(ports, n - 1, k);
      s := FillsOne(s0, s1, ports, n - 1, k);
    }
  }

  lemma {:induction false} FillsOne(s0: Race, s: Race, ports: nat, n: nat, k: nat) returns (s': Race)
    requires Reaches(s0, s) && Filled(s, ports, n, k) && k > 0
    requires n < RW_TASKS_PER_CONNECTION * ports && n < NUM_TASKS - RESERVED_TASKS
    ensures Reaches(s0, s') && Filled(s', ports, n + 1, k)
  {
    var q := n / RW_TASKS_PER_CONNECTION;
    assert Lined(s, n, k, q, 0) && s.active[q] < RW_TASKS_PER_CONNECTION;
    var s1 := Passes(s0, s, n, k, q, 0);
    s' := Takes(s0, s1, n, k, q, 1);
  }

  /** The run ends with 511 + k requests counted on the first port. */
  ghost predicate AtBound(ports: nat, k: nat, ts: seq<Move>) {
    && Admissible(Idle(ports, k), ts) && |After(Idle(ports, k), ts).active| > 0
    && After(Idle(ports, k), ts).active[0] == 511 + k
  }

  /** Some interleaving of `k` threads counts 511 + k requests on a port if and only if there are that many
      requests: k <= 3585. */
  lemma {:induction false} PortBoundReachedIff(ports: nat, k: nat)
    requires ports > 0 && k > 0
    ensures (exists ts :: AtBound(ports, k, ts)) <==> k <= 3585
  {
    var s0, n := Idle(ports, k), RW_TASKS_PER_CONNECTION - 1;
    forall ts | AtBound(ports, k, ts) ensures n + k <= NUM_TASKS { Bounded(ports, k, ts, 0); }
    if n + k <= NUM_TASKS {
      var s1 := Fills(ports, n, k);
      var s2 := AllPass(s0, s1, n, k, 0, k);
      var s3 := AllTake(s0, s2, n, k, 0, k, k);
      var ts :| Admissible(s0, ts) && After(s0, ts) == s3;
      assert AtBound(ports, k, ts);
    }
  }

  const LOW := NUM_TASKS - RESERVED_TASKS - 1   // the slots in use when the last test of the pool succeeds

  /** `k` threads pass both tests when one slot more than the reserve is free. */
  lemma {:induction false} Rush(ports: nat, k: nat) returns (s: Race)
    requires ports >= 8 && k > 0
    ensures Reaches(Idle(ports, k), s) && Lined(s, LOW, k, 7, k)
  {
    var s1 := Fills(ports, LOW, k);
    assert Lined(s1, LOW, k, 7, 0) && s1.active[7] == Load(LOW, 7);
    s := AllPass(Idle(ports, k), s1, LOW, k, 7, k);
  }

  /** With eight ports some interleaving takes all that `k` threads can take of the reserve. */
  lemma {:induction false} ReserveReached(ports: nat, k: nat)
    requires ports >= 8 && k > 0
    ensures exists ts :: Admissible(Idle(ports, k), ts) && After(Idle(ports, k), ts).free == Spare(k)
  {
    var s0, m := Idle(ports, k), NUM_TASKS - LOW - Spare(k);
    var s1 := Rush(ports, k);
    var s2 := AllTake(s0, s1, LOW, k, 7, k, m);
    var ts :| Admissible(s0, ts) && After(s0, ts) == s2;
  }

  /** With eight ports a scan can fail although both tests were passed, if and only if 18 threads are inside. */
  lemma {:induction false} ScanFailsIff(ports: nat, k: nat)
    requires ports >= 8 && k > 0
    ensures (exists ts, i :: ScanFails(ports, k, ts, i)) <==> k >= 18
  {
    var s0 := Idle(ports, k);
    forall ts, i | ScanFails(ports, k, ts, i) ensures k >= 18 {
      ScanNeedsCrowd(ports, k, ts, i);
    }
    if k >= 18 {
      var s1 := Rush(ports, k);
      var s2 := AllTake(s0, s1, LOW, k, 7, k, RESERVED_TASKS + 1);
      var ts :| Admissible(s0, ts) && After(s0, ts) == s2;
      assert ScanFails(ports, k, ts, 0);
    }
  }
}
