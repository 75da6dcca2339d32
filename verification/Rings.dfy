/** The send queue and the completion queue. The driver keeps a ring index and the firmware a
    free-running 16-bit index; both refine an unbounded queue. */
module Rings {
  const U16 := 0x10000
  const SQ_NUM_ENTRIES := 1024
  const CQ_NUM_ENTRIES := 4096

  // ---- Ring arithmetic

  /** The position of the n-th entry in a ring of `m`: n modulo m, as repeated subtraction. */
  function Slot(n: nat, m: nat): (k: nat)
    requires m > 0
    ensures k < m
  {
    if n < m then n else Slot(n - m, m)
  }

  lemma {:induction false} SlotIsMod(n: nat, m: nat)
    requires m > 0
    ensures Slot(n, m) == n % m
  {
    if n >= m {
      SlotIsMod(n - m, m);
      ModStep(n - m, m);
    } else {
      ModSmall(n, m);
    }
  }

  lemma {:induction false} ModSmall(n: nat, m: nat)
    requires n < m
    ensures n % m == n
  {}

  lemma {:induction false} ModStep(n: nat, m: nat)
    requires m > 0
    ensures (n + m) % m == n % m
  {
    Remainder(n + m, n / m + 1, n % m, m);
  }

  /** Quotient and remainder are unique. */
  lemma {:induction false} Remainder(n: nat, q: int, r: nat, m: nat)
    requires m > 0 && r < m && n == q * m + r
    ensures n % m == r
  {
    var d := n / m - q;
    assert d * m == n / m * m - q * m;
    if d != 0 { BigMultiple(d, m); }
  }

  lemma {:induction false} MulNonneg(a: int, b: int)
    requires a >= 0 && b >= 0
    ensures a * b >= 0
  {}

  lemma {:induction false} BigMultiple(d: int, m: int)
    requires m > 0 && d != 0
    ensures d * m >= m || d * m <= -m
  {
    if d >= 1 {
      MulNonneg(d - 1, m);
      assert d * m == (d - 1) * m + m;
    } else {
      MulNonneg(-1 - d, m);
      assert d * m == -((-1 - d) * m) - m;
    }
  }

  /** It is the position the driver reaches by counting up and wrapping at the end of the ring. */
  lemma {:induction false} SlotNext(n: nat, m: nat)
    requires m > 0
    ensures Slot(n + 1, m) == if Slot(n, m) + 1 == m then 0 else Slot(n, m) + 1
  {
    if n >= m { SlotNext(n - m, m); }
  }

  /** Any `m` consecutive entries have distinct positions. */
  lemma {:induction false} SlotDistinct(i: nat, j: nat, m: nat)
    requires i < j < i + m
    ensures Slot(i, m) != Slot(j, m)
  {
    if i >= m { SlotDistinct(i - m, j - m, m); }
  }

  lemma {:induction false} SlotShift(n: nat, a: nat, m: nat)
    requires m > 0 && Slot(a, m) == 0
    ensures Slot(n + a, m) == Slot(n, m)
  {
    if a >= m { SlotShift(n, a - m, m); }
  }

  lemma {:induction false} SlotThrough(n: nat, m: nat)
    requires m > 0 && Slot(U16, m) == 0
    ensures Slot(n % U16, m) == Slot(n, m)
  {
    if n >= U16 {
      SlotThrough(n - U16, m);
      SlotShift(n - U16, U16, m);
    }
  }

  /** The ring position follows the 16-bit index through every wrap if and only if 2^16 is a multiple of
      the ring size. */
  lemma {:induction false} RingFollowsIndex(m: nat)
    requires m > 0
    ensures (forall n: nat :: Slot(n % U16, m) == Slot(n, m)) <==> 65536 % m == 0
  {
    SlotIsMod(U16, m);
    if Slot(U16, m) == 0 {
      forall n: nat ensures Slot(n % U16, m) == Slot(n, m) { SlotThrough(n, m); }
    } else {
      var n: nat := U16;
      assert Slot(n % U16, m) != Slot(n, m);
    }
  }

  /** From entry `from` on, the ring holds what the unbounded queue `all` holds. */
  ghost predicate Holds<T>(ring: seq<T>, all: seq<T>, from: int)
    requires |ring| > 0
  {
    forall i :: 0 <= i < |all| && from <= i ==> ring[Slot(i, |ring|)] == all[i]
  }

  /** Writing the next entry disturbs nothing in a window of the ring's size. */
  lemma {:induction false} HoldsNext<T>(ring: seq<T>, all: seq<T>, from: int, from': int, v: T)
    requires |ring| > 0 && Holds(ring, all, from) && from <= from' && |all| - |ring| < from'
    ensures Holds(ring[Slot(|all|, |ring|) := v], all + [v], from')
  {
    forall i | 0 <= i < |all| && from' <= i ensures Slot(i, |ring|) != Slot(|all|, |ring|) {
      SlotDistinct(i, |all|, |ring|);
    }
  }

  // ---- Send queue: qedf_io.c:374-377, 855-869, 1152-1170, 3430

  class SendQueue<T(0)> {
    const sq: array<T>
    const total: nat
    var prodIdx: nat       // sq_prod_idx
    var fwProdIdx: nat     // fw_sq_prod_idx
    var freeSqes: int      // free_sqes
    ghost var posted: seq<T>
    ghost var atFirmware: nat

    /** The ring holds the last `total` entries of the unbounded queue. */
    ghost predicate Valid()
      reads this, sq
    {
      && 0 < total < U16 && sq.Length == total
      && prodIdx == Slot(|posted|, total) && fwProdIdx == |posted| % U16
      && freeSqes + atFirmware == total && freeSqes >= 0
      && Holds(sq[..], posted, |posted| - total)
    }

    constructor (total: nat)
      requires 0 < total < U16
      ensures Valid() && posted == [] && atFirmware == 0 && this.total == total && fresh(sq)
    {
      this.total := total;
      sq := new T[total];
      prodIdx, fwProdIdx, freeSqes, posted, atFirmware := 0, 0, total, [], 0;
    }

    /** qedf_get_sqe_idx. Both indices are 16 bits wide. */
    method GetSqeIdx() returns (rval: nat)
      requires Valid()
      modifies this`prodIdx, this`fwProdIdx
      ensures rval == Slot(|posted|, total)
      ensures prodIdx == Slot(|posted| + 1, total) && fwProdIdx == (|posted| + 1) % U16
    {
      rval := prodIdx;
      prodIdx := (prodIdx + 1) % U16;
      fwProdIdx := (fwProdIdx + 1) % U16;
      if prodIdx == total { prodIdx := 0; }
      SlotNext(|posted|, total);
    }

    method Post(wqe: T)
      requires Valid() && freeSqes > 0
      modifies this, sq
      ensures Valid() && posted == old(posted) + [wqe] && atFirmware == old(atFirmware) + 1
    {
      HoldsNext(sq[..], posted, |posted| - total, |posted| + 1 - total, wqe);
      var rval := GetSqeIdx();
      sq[rval] := wqe;
      freeSqes := freeSqes - 1;
      posted := posted + [wqe];
      atFirmware := atFirmware + 1;
    }

    /** qedf_queuecommand: an entry is claimed, and given back when the command cannot be built. */
    method Queue(wqe: T, buildOk: bool) returns (ok: bool)
      requires Valid()
      modifies this, sq
      ensures Valid() && ok == (old(freeSqes) > 0 && buildOk)
      ensures posted == if ok then old(posted) + [wqe] else old(posted)
      ensures atFirmware == old(atFirmware) + if ok then 1 else 0
    {
      if freeSqes == 0 { return false; }
      if !buildOk {
        freeSqes := freeSqes - 1;
        freeSqes := freeSqes + 1;
        return false;
      }
      Post(wqe);
      return true;
    }

    /** A good completion gives the entry back. */
    method Complete()
      requires Valid() && atFirmware > 0
      modifies this
      ensures Valid() && posted == old(posted) && atFirmware == old(atFirmware) - 1
    {
      freeSqes := freeSqes + 1;
      atFirmware := atFirmware - 1;
    }
  }

  /** The two producer indices agree modulo the queue size, whenever the size fits. */
  lemma {:induction false} ProducersAgree<T(0)>(q: SendQueue<T>)
    requires q.Valid() && U16 % q.total == 0
    ensures q.prodIdx == q.fwProdIdx % q.total
  {
    SlotIsMod(U16, q.total);
    SlotIsMod(q.fwProdIdx, q.total);
    SlotThrough(|q.posted|, q.total);
  }

  /** The driver's ring sizes fit: a send queue of 1024 and a completion queue of 4096 entries. */
  lemma {:induction false} DriverSizesFit(n: nat)
    ensures Slot(n % U16, SQ_NUM_ENTRIES) == n % 1024
    ensures Slot(n % U16, CQ_NUM_ENTRIES) == n % 4096
  {
    RingFollowsIndex(SQ_NUM_ENTRIES);
    RingFollowsIndex(CQ_NUM_ENTRIES);
    SlotIsMod(n, SQ_NUM_ENTRIES);
    SlotIsMod(n, CQ_NUM_ENTRIES);
  }

  // ---- Completion queue: qedf_main.c:2718-2813

  /** The 16-bit difference between the firmware's index and the saved one. */
  function NewCqes(prod: nat, saved: nat): (n: nat)
    requires prod < U16 && saved < U16
  {
    if prod >= saved then prod - saved else U16 - saved + prod
  }

  lemma {:induction false} WrappedDifference(a: nat, b: nat)
    requires a <= b
    ensures NewCqes(b % U16, a % U16) == (b - a) % U16
  {}

  /** The driver sees exactly the new entries if and only if there are fewer than 2^16 of them. */
  lemma {:induction false} DifferenceExactIff(a: nat, b: nat)
    requires a <= b
    ensures NewCqes(b % U16, a % U16) == b - a <==> b - a < 65536
  {
    WrappedDifference(a, b);
  }

  datatype Cqe = Cqe(unsolicited: bool, data: nat)

  /** What happens to an entry: handled in the interrupt, or copied into a work item. */
  datatype Dispatch = Direct(cqe: Cqe) | Queued(cqe: Cqe)

  function DispatchOf(c: Cqe): (d: Dispatch) { if c.unsolicited then Direct(c) else Queued(c) }

  function DispatchAll(cs: seq<Cqe>): (ds: seq<Dispatch>)
    ensures |ds| == |cs| && forall i :: 0 <= i < |cs| ==> ds[i] == DispatchOf(cs[i])
  {
    seq(|cs|, i requires 0 <= i < |cs| => DispatchOf(cs[i]))
  }

  /** Atomic allocations fail as `plan` says; after it they succeed. */
  class Allocator {
    var plan: seq<bool>

    constructor (plan: seq<bool>)
      ensures this.plan == plan
    {
      this.plan := plan;
    }

    method TryAlloc() returns (ok: bool)
      modifies this
      ensures !ok ==> |plan| < |old(plan)|
      ensures |plan| <= |old(plan)|
    {
      if plan == [] { return true; }
      ok := plan[0];
      plan := plan[1..];
    }
  }

  lemma {:induction false} IndexNext(n: nat)
    ensures (n % U16 + 1) % U16 == (n + 1) % U16
  {}

  class CompletionQueue {
    const cq: array<Cqe>
    const entries: nat           // cq_num_entries
    var consIdx: nat             // cq_cons_idx
    var prodIdx: nat             // cq_prod_idx, the saved firmware index
    var fwIdx: nat               // the firmware's index in the status block
    var fwSlot: nat              // where the firmware writes next
    ghost var produced: seq<Cqe>
    ghost var consumed: nat
    ghost var dispatched: seq<Dispatch>

    /** The firmware is at most one ring ahead; everything consumed was dispatched, once and in order. */
    ghost predicate Valid()
      reads this, cq
    {
      && 0 < entries < U16 && cq.Length == entries && consumed <= |produced| <= consumed + entries
      && consIdx == Slot(consumed, entries) && prodIdx == consumed % U16
      && fwIdx == |produced| % U16 && fwSlot == Slot(|produced|, entries)
      && Holds(cq[..], produced, consumed)
      && dispatched == DispatchAll(produced[..consumed])
    }

    constructor (entries: nat)
      requires 0 < entries < U16
      ensures Valid() && this.entries == entries && produced == [] && dispatched == [] && consumed == 0 && fresh(cq)
    {
      this.entries := entries;
      cq := new Cqe[entries](_ => Cqe(false, 0));
      consIdx, prodIdx, fwIdx, fwSlot, produced, consumed, dispatched := 0, 0, 0, 0, [], 0, [];
    }

    /** The firmware writes an entry; it must not lap the driver. */
    method Produce(c: Cqe)
      requires Valid() && |produced| < consumed + entries
      modifies this, cq
      ensures Valid() && produced == old(produced) + [c] && consumed == old(consumed) && dispatched == old(dispatched)
    {
      HoldsNext(cq[..], produced, consumed, consumed, c);
      SlotNext(|produced|, entries);
      IndexNext(|produced|);
      Write(c);
      produced := produced + [c];
      assert produced[..consumed] == old(produced)[..consumed];
    }

    /** The firmware's own indices. */
    method Write(c: Cqe)
      requires cq.Length == entries && fwSlot < entries && fwIdx < U16
      modifies this`fwSlot, this`fwIdx, cq
      ensures cq[..] == old(cq[..])[old(fwSlot) := c]
      ensures fwSlot == (if old(fwSlot) + 1 == entries then 0 else old(fwSlot) + 1) && fwIdx == (old(fwIdx) + 1) % U16
    {
      cq[fwSlot] := c;
      fwSlot := if fwSlot + 1 == entries then 0 else fwSlot + 1;
      fwIdx := (fwIdx + 1) % U16;
    }

    /** The body of the loop: entry `consIdx` is dispatched, unless its work item cannot be had. */
    method Step(a: Allocator) returns (ok: bool)
      requires 0 < entries < U16 && cq.Length == entries && consumed < |produced| && consIdx == Slot(consumed, entries)
      requires Holds(cq[..], produced, consumed) && dispatched == DispatchAll(produced[..consumed])
      modifies this`consIdx, this`consumed, this`dispatched, a
      ensures !ok ==> unchanged(this) && |a.plan| < |old(a.plan)|
      ensures ok ==> consumed == old(consumed) + 1 && consIdx == Slot(consumed, entries)
                     && dispatched == DispatchAll(produced[..consumed])
    {
      var c := cq[consIdx];
      assert cq[..][consIdx] == c;
      if !c.unsolicited {
        ok := a.TryAlloc();
        if !ok { return; }
      }
      SlotNext(consumed, entries);
      assert produced[..consumed + 1] == produced[..consumed] + [c];
      dispatched := dispatched + [DispatchOf(c)];
      consIdx := consIdx + 1;
      if consIdx == entries { consIdx := 0; }
      consumed := consumed + 1;
      return true;
    }

    /** qedf_process_completions: dispatches what the firmware has produced since the last interrupt. An
        allocation that fails repeats the same entry. */
    method ProcessCompletions(a: Allocator)
      requires Valid()
      modifies this, a
      ensures Valid() && produced == old(produced) && consumed == |produced|
      ensures dispatched == old(dispatched) + DispatchAll(produced[old(consumed)..])
      ensures |dispatched| == |produced|
      ensures forall i :: 0 <= i < |produced| ==>
        dispatched[i].cqe == produced[i] && (dispatched[i].Direct? <==> produced[i].unsolicited)
    {
      WrappedDifference(consumed, |produced|);
      var newCqes := NewCqes(fwIdx, prodIdx);
      prodIdx := fwIdx;
      while newCqes > 0
        invariant consumed + newCqes == |produced| && old(consumed) <= consumed && consIdx == Slot(consumed, entries)
        invariant dispatched == DispatchAll(produced[..consumed])
        modifies this`consIdx, this`consumed, this`dispatched, a
        decreases newCqes, |a.plan|
      {
        var ok := Step(a);
        if ok { newCqes := newCqes - 1; }
      }
      DispatchSplit(produced, old(consumed));
    }
  }

  /** Between interrupts the consumer index is the saved producer index modulo the ring size, whenever
      the size fits. */
  lemma {:induction false} ConsumerFollows(q: CompletionQueue)
    requires q.Valid() && U16 % q.entries == 0
    ensures q.consIdx == q.prodIdx % q.entries
  {
    SlotIsMod(U16, q.entries);
    SlotIsMod(q.prodIdx, q.entries);
    SlotThrough(q.consumed, q.entries);
  }

  lemma {:induction false} DispatchSplit(cs: seq<Cqe>, k: nat)
    requires k <= |cs|
    ensures DispatchAll(cs[..|cs|]) == DispatchAll(cs[..k]) + DispatchAll(cs[k..])
  {}
}
