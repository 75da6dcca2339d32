/** Task context memory (qedf.h:513-517): tasks are laid out in blocks, `perBlock` to a block. The buffer
    descriptor tables (qedf_io.c:268-296, 392) are allocated one to a request. */
module TaskMemory {
  import opened Exchange
  import opened CommandManager
  import opened Rings

  datatype Layout = Layout(blocks: seq<nat>, perBlock: nat, size: nat)

  /** qedf_get_task_mem: the address of task `tid`. */
  function TaskMem(l: Layout, tid: nat): (addr: nat)
    requires l.perBlock > 0 && tid / l.perBlock < |l.blocks|
  {
    l.blocks[tid / l.perBlock] + tid % l.perBlock * l.size
  }

  /** Task k of block b: the first is at the base of the block, and neighbours are `size` bytes apart. */
  lemma {:induction false} TaskAt(l: Layout, b: nat, k: nat)
    requires b < |l.blocks| && k < l.perBlock
    ensures (b * l.perBlock + k) / l.perBlock == b
    ensures TaskMem(l, b * l.perBlock + k) == l.blocks[b] + k * l.size
    ensures k == 0 ==> TaskMem(l, b * l.perBlock) == l.blocks[b]
    ensures k + 1 < l.perBlock ==> (b * l.perBlock + k + 1) / l.perBlock == b
    ensures k + 1 < l.perBlock ==> TaskMem(l, b * l.perBlock + k + 1) == TaskMem(l, b * l.perBlock + k) + l.size
  {
    Position(b, k, l.perBlock);
    if k + 1 < l.perBlock {
      Position(b, k + 1, l.perBlock);
      assert (k + 1) * l.size == k * l.size + l.size;
    }
  }

  lemma {:induction false} Position(b: nat, k: nat, n: nat)
    requires k < n
    ensures (b * n + k) / n == b && (b * n + k) % n == k
  {
    Remainder(b * n + k, b, k, n);
    var q := (b * n + k) / n;
    assert q * n == b * n;
    if q != b { BigMultiple(q - b, n); }
  }

  predicate Disjoint(a: nat, b: nat, n: nat) { a + n <= b || b + n <= a }

  /** Blocks do not overlap and have room for their tasks. */
  ghost predicate BlocksOk(l: Layout) {
    && l.perBlock > 0
    && forall i, j :: 0 <= i < j < |l.blocks| ==> Disjoint(l.blocks[i], l.blocks[j], l.perBlock * l.size)
  }

  lemma {:induction false} MulStep(a: nat, b: nat, n: nat)
    requires a < b
    ensures a * n + n <= b * n
  {
    assert (b - a - 1) * n >= 0;
    assert b * n == (b - a - 1) * n + a * n + n;
  }

  /** A task stays within its block. */
  lemma {:induction false} WithinBlock(l: Layout, tid: nat)
    requires l.perBlock > 0 && tid / l.perBlock < |l.blocks|
    ensures var b := l.blocks[tid / l.perBlock];
            b <= TaskMem(l, tid) && TaskMem(l, tid) + l.size <= b + l.perBlock * l.size
  {
    MulStep(tid % l.perBlock, l.perBlock, l.size);
    assert tid % l.perBlock * l.size >= 0;
  }

  lemma {:induction false} SameBlock(l: Layout, s: nat, t: nat)
    requires l.perBlock > 0 && s / l.perBlock == t / l.perBlock < |l.blocks| && s % l.perBlock != t % l.perBlock
    ensures Disjoint(TaskMem(l, s), TaskMem(l, t), l.size)
  {
    var a, b := s % l.perBlock, t % l.perBlock;
    if a < b { MulStep(a, b, l.size); } else { MulStep(b, a, l.size); }
  }

  lemma {:induction false} QuotRem(s: nat, t: nat, n: nat)
    requires n > 0 && s != t && s / n == t / n
    ensures s % n != t % n
  {
    assert s == s / n * n + s % n && t == t / n * n + t % n;
  }

  /** Distinct tasks have disjoint memory. */
  lemma {:induction false} TasksDisjoint(l: Layout, s: nat, t: nat)
    requires BlocksOk(l) && s != t && s / l.perBlock < |l.blocks| && t / l.perBlock < |l.blocks|
    ensures Disjoint(TaskMem(l, s), TaskMem(l, t), l.size)
  {
    if s / l.perBlock == t / l.perBlock {
      QuotRem(s, t, l.perBlock);
      SameBlock(l, s, t);
    } else {
      OtherBlock(l, s, t);
    }
  }

  lemma {:induction false} OtherBlock(l: Layout, s: nat, t: nat)
    requires BlocksOk(l) && s / l.perBlock < |l.blocks| && t / l.perBlock < |l.blocks|
    requires s / l.perBlock != t / l.perBlock
    ensures Disjoint(TaskMem(l, s), TaskMem(l, t), l.size)
  {
    WithinBlock(l, s);
    WithinBlock(l, t);
    var i, j := s / l.perBlock, t / l.perBlock;
    BlocksApart(l, i, j);
    Nested(l.blocks[i], l.blocks[j], l.perBlock * l.size, TaskMem(l, s), TaskMem(l, t), l.size);
  }

  lemma {:induction false} BlocksApart(l: Layout, i: nat, j: nat)
    requires BlocksOk(l) && i < |l.blocks| && j < |l.blocks| && i != j
    ensures Disjoint(l.blocks[i], l.blocks[j], l.perBlock * l.size)
  {}

  lemma {:induction false} Nested(a: nat, b: nat, n: nat, x: nat, y: nat, m: nat)
    requires Disjoint(a, b, n) && a <= x && x + m <= a + n && b <= y && y + m <= b + n
    ensures Disjoint(x, y, m)
  {}

  /** Tables of `size` bytes that were allocated separately. */
  ghost predicate TablesOk(tables: seq<nat>, size: nat) {
    |tables| == NUM_TASKS && forall i, j :: 0 <= i < j < |tables| ==> Disjoint(tables[i], tables[j], size)
  }

  /** Two requests of the pool, live or not, never share task memory or a descriptor table: both are found by
      the xid, which is the request's own index for good. */
  lemma {:induction false} RequestsDisjoint(m: Manager, l: Layout, tables: seq<nat>, size: nat, x: Request, y: Request)
    requires m.Valid() && x in m.cmds[..] && y in m.cmds[..] && x != y
    requires BlocksOk(l) && NUM_TASKS <= |l.blocks| * l.perBlock && TablesOk(tables, size)
    ensures x.xid < NUM_TASKS && y.xid < NUM_TASKS
    ensures x.xid / l.perBlock < |l.blocks| && y.xid / l.perBlock < |l.blocks|
    ensures Disjoint(TaskMem(l, x.xid), TaskMem(l, y.xid), l.size) && Disjoint(tables[x.xid], tables[y.xid], size)
  {
    var i :| 0 <= i < m.cmds.Length && m.cmds[i] == x;
    var j :| 0 <= j < m.cmds.Length && m.cmds[j] == y;
    assert x.xid == i && y.xid == j && i != j;
    InBlocks(i, |l.blocks|, l.perBlock);
    InBlocks(j, |l.blocks|, l.perBlock);
    TasksDisjoint(l, i, j);
    if i < j { assert Disjoint(tables[i], tables[j], size); } else { assert Disjoint(tables[j], tables[i], size); }
  }

  lemma {:induction false} InBlocks(t: nat, b: nat, n: nat)
    requires n > 0 && t < b * n
    ensures t / n < b
  {
    assert t == t / n * n + t % n;
    if b <= t / n { MulMonotone(b, t / n, n); }
  }

  lemma {:induction false} MulMonotone(a: nat, b: nat, n: nat)
    requires a <= b
    ensures a * n <= b * n
  {
    assert (b - a) * n >= 0;
    assert b * n == (b - a) * n + a * n;
  }
}
