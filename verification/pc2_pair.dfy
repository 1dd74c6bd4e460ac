/** The schedulers of tree C and tree R of one stream: they take their buffers from one pool, in turn. */
module Pc2Pair {
  import opened Pc2Tree
  import opened Pc2Planner

  datatype Pool = Pool(free: seq<int>, count: nat)

  /** The pool once an item has taken a buffer and its inputs have come back. */
  function PoolAfter(pool: Pool, w: WorkItem): Pool {
    Pool(PoolLeft(pool.free) + Freed(w), CountLeft(pool.free, pool.count))
  }

  /** The progress that both schedulers share, and which buffer each has for every waiting node. */
  datatype View = View(done: Progress, pending: nat, heldC: Held, heldR: Held, trace: seq<NodeId>)

  ghost function NewView<D>(t: Tree<D>): View { View(seq(t.height + 3, _ => 0), 0, map[], map[], []) }

  ghost function ViewAfter<D>(t: Tree<D>, v: View, l: nat, bufC: int, bufR: int): View
    requires |v.done| == t.height + 3 && l <= t.height + 1
  {
    var id := NodeId(l, v.done[l]);
    var done := v.done[l := v.done[l] + 1];
    View(done, Pending(t, done, l), HeldAfter(v.heldC, l, id, bufC), HeldAfter(v.heldR, l, id, bufR), v.trace + [id])
  }

  ghost predicate Apart(a: Held, b: Held) {
    forall i, j :: i in a && j in b ==> a[i] != b[j]
  }

  ghost predicate AgendaOk<D>(t: Tree<D>, done: Progress, pending: nat, held: Held, a: Agenda)
    requires |done| == t.height + 3 && pending <= t.height + 1
  {
    StackOk(t, done, pending, held, a.stack) && WipOk(t, done, held, a.wip)
  }

  ghost predicate HeldIs<D>(t: Tree<D>, done: Progress, held: Held)
    requires |done| == t.height + 3
  {
    forall id :: id in held <==> Waits(t, done, id)
  }

  /** Buffers of the two trees never coincide, and none of them is in the pool. */
  ghost predicate Shared(a: Held, b: Held, pool: Pool) {
    Owned(a, pool.free, pool.count) && Owned(b, pool.free, pool.count) && Apart(a, b)
  }

  /** The most buffers that two schedulers with one pool ever need at once. */
  function PairPeak<D>(t: Tree<D>): nat
    requires t.Ok()
  {
    if t.height == 0 then 2 else 2 * Peak(t) - 1
  }

  ghost predicate PairCountOk<D>(t: Tree<D>, done: Progress, count: nat, lost: nat)
    requires t.Ok() && |done| == t.height + 3
  {
    var last := if t.height == 0 then 1 else 2;
    count <= PairPeak(t) + lost && (done[last] == Width(t, last) ==> count == PairPeak(t) + lost)
  }

  /** What both schedulers and the pool keep true between calls; `lost` buffers of earlier runs are out of
    * reach for good.
    */
  ghost predicate PairOk<D>(t: Tree<D>, v: View, c: Agenda, r: Agenda, pool: Pool, lost: nat) {
    && DepthFirst(t, v.done, v.pending)
    && AgendaOk(t, v.done, v.pending, v.heldC, c) && AgendaOk(t, v.done, v.pending, v.heldR, r)
    && HeldIs(t, v.done, v.heldC) && HeldIs(t, v.done, v.heldR) && Shared(v.heldC, v.heldR, pool)
    && |pool.free| + 2 * Waiting(t, v.done, 1) + lost == pool.count
    && PairCountOk(t, v.done, pool.count, lost) && TraceOk(t, v.done, v.trace)
  }

  ghost predicate Gathered(held: Held, below: nat, first: int, inputs: seq<int>) {
    forall i :: 0 <= i < |inputs| ==> Child(below, first, i) in held && inputs[i] == held[Child(below, first, i)]
  }

  /** The inputs of an item are its children's buffers, in place. */
  ghost predicate FromChildren<D>(t: Tree<D>, held: Held, w: WorkItem) {
    && w.idx.layer > 0 && w.isLeaf == (w.idx.layer == 1)
    && (!w.isLeaf ==> |w.inputs| == t.arity && Gathered(held, w.idx.layer - 1, t.arity * w.idx.node, w.inputs))
  }

  /** What one scheduler's turn does to its stack and open parents, and where its item comes from. */
  lemma Turn<D>(t: Tree<D>, done: Progress, pending: nat, held: Held, a: Agenda, buf: int)
    requires DepthFirst(t, done, pending) && AgendaOk(t, done, pending, held, a) && a.stack != []
    ensures More(t, done, pending) && CanTake(t, a)
    ensures
      var l := Layer(pending);
      var w := Item(t, a, buf);
      && 1 <= l <= t.height + 1 && w.idx == NodeId(l, done[l]) && 0 <= done[l] < Width(t, l)
      && FromChildren(t, held, w) && w.isLeaf == (pending == 0)
      && var done' := done[l := done[l] + 1];
      && DepthFirst(t, done', Pending(t, done', l))
      && AgendaOk(t, done', Pending(t, done', l), HeldAfter(held, l, w.idx, buf), Taken(t, a, buf))
  {
    hide DepthFirst, StackOk, WipOk, More, Collects, HeldAfter, Pending, Taken, Width;
    TopItem(t, done, pending, held, a.stack);
    Room(t, done, pending);
    Hashed(t, done, pending);
    PendingRange(t, done, pending);
    AgendaAfter(t, done, pending, held, a, buf);
    DoneSize(t, done, pending);
    var w := Item(t, a, buf);
    ItemGathered(t, done, pending, held, w);
  }

  lemma ItemGathered<D>(t: Tree<D>, done: Progress, pending: nat, held: Held, w: WorkItem)
    requires DepthFirst(t, done, pending) && w.idx == NodeId(Layer(pending), done[Layer(pending)])
    requires w.isLeaf == (pending == 0) && (pending > 0 ==> Collects(t, done, held, pending - 1, w.inputs))
    ensures FromChildren(t, held, w)
  {
    PendingRange(t, done, pending);
    if pending > 0 {
      hide DepthFirst, Collects;
      var first := t.arity * done[pending];
      InputsHeld(t, done, pending, held, w.inputs, first);
      assert Gathered(held, pending - 1, first, w.inputs);
    }
  }

  /** One scheduler's turn at the pool: its buffer is new to both trees, its inputs come back. */
  lemma PoolTurn(a: Held, b: Held, pool: Pool, l: nat, w: WorkItem, below: nat, first: int)
    requires Shared(a, b, pool) && w.buf == GotBuf(pool.free, pool.count) && w.idx.layer == l
    requires !w.isLeaf ==> below == l - 1
    requires Gathered(a, below, first, Freed(w))
    ensures Shared(HeldAfter(a, l, w.idx, w.buf), b, PoolAfter(pool, w))
    ensures forall k :: k in a ==> a[k] != w.buf
    ensures forall k :: k in b ==> b[k] != w.buf
  {
    var inputs := Freed(w);
    TakeBuffer(a, pool.free, pool.count);
    TakeBuffer(b, pool.free, pool.count);
    GiveAndReturn(a, PoolLeft(pool.free), CountLeft(pool.free, pool.count), l, w.idx, w.buf, inputs, below, first);
    NotAmong(a, b, inputs, below, first);
    OthersOwned(b, PoolLeft(pool.free), inputs, CountLeft(pool.free, pool.count));
    StillApart(a, b, l, w.idx, w.buf);
  }

  lemma NotAmong(a: Held, b: Held, inputs: seq<int>, below: nat, first: int)
    requires Apart(a, b)
    requires Gathered(a, below, first, inputs)
    ensures forall k :: k in b ==> b[k] !in inputs
  {
    forall k, i | k in b && 0 <= i < |inputs| ensures b[k] != inputs[i] {
      assert Child(below, first, i) in a;
    }
  }

  lemma OthersOwned(b: Held, pool: seq<int>, inputs: seq<int>, count: nat)
    requires Owned(b, pool, count) && forall k :: k in b ==> b[k] !in inputs
    requires Owned(map[], pool + inputs, count)
    ensures Owned(b, pool + inputs, count)
  {
  }

  lemma StillApart(a: Held, b: Held, l: nat, id: NodeId, buf: int)
    requires Apart(a, b) && forall k :: k in b ==> b[k] != buf
    ensures Apart(HeldAfter(a, l, id, buf), b)
  {
  }

  /** Both turns: neither item's buffer is in use, and only tree C's inputs are free to be taken again. */
  ghost predicate TakenApart(v: View, v': View, c: WorkItem, r: WorkItem) {
    && c.buf != r.buf && c.buf !in Freed(c) && c.buf !in Freed(r) && r.buf !in Freed(r)
    && c.idx == r.idx && c.isLeaf == r.isLeaf
    && c.idx in v'.heldC && v'.heldC[c.idx] == c.buf && r.idx in v'.heldR && v'.heldR[r.idx] == r.buf
    && (forall k :: k in v'.heldC && k != c.idx ==>
          k in v.heldC && v'.heldC[k] == v.heldC[k] && v'.heldC[k] != c.buf && v'.heldC[k] != r.buf)
    && (forall k :: k in v'.heldR && k != c.idx ==>
          k in v.heldR && v'.heldR[k] == v.heldR[k] && v'.heldR[k] != c.buf && v'.heldR[k] != r.buf)
  }

  /** The count after both turns, and the bound on it. */
  lemma PairCountAfter<D>(t: Tree<D>, done: Progress, pending: nat, pool: Pool, c: WorkItem, r: WorkItem, lost: nat)
    requires DepthFirst(t, done, pending) && More(t, done, pending) && PairCountOk(t, done, pool.count, lost)
    requires |pool.free| + 2 * Waiting(t, done, 1) + lost == pool.count
    requires |Freed(c)| == |Freed(r)| == (if pending > 0 then t.arity else 0)
    ensures
      var l := Layer(pending);
      l <= t.height + 1 &&
      var done' := done[l := done[l] + 1];
      var pool' := PoolAfter(PoolAfter(pool, c), r);
      && PairCountOk(t, done', pool'.count, lost)
      && |pool'.free| + 2 * Waiting(t, done', 1) + lost == pool'.count
  {
    hide DepthFirst, More, Waiting, Width, Waits, Peak, PairPeak, PoolAfter, Freed;
    WaitingAfter(t, done, pending);
    PendingRange(t, done, pending);
    PeakBounds(t, done, pending);
    PoolSizes(pool, c, r);
    Room(t, done, pending);
    LayersApart(t, done, pending);
  }

  /** Only the layer of the next node grows. */
  lemma LayersApart<D>(t: Tree<D>, done: Progress, pending: nat)
    requires DepthFirst(t, done, pending) && More(t, done, pending) && Layer(pending) <= t.height + 1
    ensures
      var last := if t.height == 0 then 1 else 2;
      var l := Layer(pending);
      var done' := done[l := done[l] + 1];
      done'[last] == Width(t, last) ==> done[last] == Width(t, last) || (l == last && done[last] + 1 == Width(t, last))
  {
  }

  /** How the next two buffers stand to the peak. */
  lemma PeakBounds<D>(t: Tree<D>, done: Progress, pending: nat)
    requires DepthFirst(t, done, pending) && More(t, done, pending)
    ensures Layer(pending) <= t.height + 1 && Waiting(t, done, 1) >= (if pending > 0 then t.arity else 0)
    ensures pending == 0 ==> 2 * Waiting(t, done, 1) + 2 <= PairPeak(t)
    ensures pending > 0 ==> 2 * Waiting(t, done, 1) + 1 <= PairPeak(t)
    ensures
      var last := if t.height == 0 then 1 else 2;
      Layer(pending) == last && done[last] + 1 == Width(t, last) ==>
        (if pending > 0 then 2 * Waiting(t, done, 1) + 1 else 2 * Waiting(t, done, 1) + 2) == PairPeak(t)
  {
    hide DepthFirst, More, Width, Waiting;
    NeverAbovePeak(t, done, pending);
    PendingRange(t, done, pending);
    WaitingNat(t, done, pending);
    WaitingFrom(t, done, pending);
    if pending == 0 {
      PeakIs(t);
    }
    DoneSize(t, done, pending);
    if pending == 2 && done[2] + 1 == Width(t, 2) {
      ReachesPeak(t, done);
    }
  }

  lemma DoneSize<D>(t: Tree<D>, done: Progress, pending: nat)
    requires DepthFirst(t, done, pending)
    ensures |done| == t.height + 3
  {
  }

  lemma WaitingNat<D>(t: Tree<D>, done: Progress, pending: nat)
    requires DepthFirst(t, done, pending)
    ensures Waiting(t, done, 1) >= (if pending > 0 then t.arity else 0)
  {
    hide Width, Gap;
    SomeWaiting(t, done, pending, 1);
  }

  lemma {:induction false} SomeWaiting<D>(t: Tree<D>, done: Progress, pending: nat, from: nat)
    requires DepthFirst(t, done, pending) && 1 <= from <= t.height + 2
    ensures Waiting(t, done, from) >= (if pending > from then t.arity else 0)
    decreases t.height + 2 - from
  {
    if from < t.height + 2 {
      SomeWaiting(t, done, pending, from + 1);
    }
  }

  lemma PeakIs<D>(t: Tree<D>)
    requires t.Ok()
    ensures t.height > 0 ==> PairPeak(t) == 2 * (t.height * (t.arity - 1)) + 3
  {
  }

  lemma PoolSizes(pool: Pool, c: WorkItem, r: WorkItem)
    requires |Freed(c)| == |Freed(r)|
    ensures
      var pool' := PoolAfter(PoolAfter(pool, c), r);
      var n := |pool.free|;
      && |pool'.free| - pool'.count == n - pool.count - 2 + 2 * |Freed(c)|
      && pool'.count == pool.count + (if |Freed(c)| > 0 then (if n == 0 then 1 else 0)
                                      else if n == 0 then 2 else if n == 1 then 1 else 0)
  {
  }

  lemma TakeHas<D>(t: Tree<D>, a: Agenda)
    requires CanTake(t, a)
    ensures |a.stack| > 0
  {
  }

  lemma FreedCount<D>(t: Tree<D>, held: Held, w: WorkItem)
    requires FromChildren(t, held, w)
    ensures |Freed(w)| == if w.isLeaf then 0 else t.arity
  {
  }

  lemma HeldIsAfter<D>(t: Tree<D>, done: Progress, pending: nat, held: Held, buf: int)
    requires DepthFirst(t, done, pending) && More(t, done, pending) && HeldIs(t, done, held)
    ensures
      var l := Layer(pending);
      l <= t.height + 1 && HeldIs(t, done[l := done[l] + 1], HeldAfter(held, l, NodeId(l, done[l]), buf))
  {
    WaitingAfter(t, done, pending);
    hide DepthFirst, More, Waits, Waiting, HeldAfter;
    HeldKeys(held, Layer(pending), NodeId(Layer(pending), done[Layer(pending)]), buf);
  }

  lemma Mirror(a: Held, b: Held, pool: Pool)
    requires Shared(a, b, pool)
    ensures Shared(b, a, pool)
  {
    hide Owned;
  }

  /** Both turns at the pool. */
  lemma PoolTurns<D>(t: Tree<D>, a: Held, b: Held, pool: Pool, l: nat, c: WorkItem, r: WorkItem)
    requires Shared(a, b, pool) && c.buf == GotBuf(pool.free, pool.count) && c.idx == r.idx && c.idx.layer == l
    requires FromChildren(t, a, c) && FromChildren(t, b, r)
    requires r.buf == GotBuf(PoolAfter(pool, c).free, PoolAfter(pool, c).count)
    ensures Shared(HeldAfter(a, l, c.idx, c.buf), HeldAfter(b, l, r.idx, r.buf), PoolAfter(PoolAfter(pool, c), r))
    ensures forall k :: k in a ==> a[k] != c.buf
    ensures forall k :: k in b ==> b[k] != c.buf && b[k] != r.buf
    ensures forall k :: k in HeldAfter(a, l, c.idx, c.buf) ==> HeldAfter(a, l, c.idx, c.buf)[k] != r.buf
  {
    hide Owned, PoolAfter, GotBuf, Apart, HeldAfter;
    var first := t.arity * c.idx.node;
    PoolTurn(a, b, pool, l, c, l - 1, first);
    var a' := HeldAfter(a, l, c.idx, c.buf);
    Mirror(a', b, PoolAfter(pool, c));
    PoolTurn(b, a', PoolAfter(pool, c), l, r, l - 1, first);
    Mirror(HeldAfter(b, l, r.idx, r.buf), a', PoolAfter(PoolAfter(pool, c), r));
  }

  lemma Fresh<D>(t: Tree<D>, v: View, v': View, c: WorkItem, r: WorkItem)
    requires FromChildren(t, v.heldC, c) && FromChildren(t, v.heldR, r) && c.idx == r.idx
    requires v'.heldC == HeldAfter(v.heldC, c.idx.layer, c.idx, c.buf)
    requires v'.heldR == HeldAfter(v.heldR, c.idx.layer, c.idx, r.buf)
    requires forall k :: k in v.heldC ==> v.heldC[k] != c.buf
    requires forall k :: k in v.heldR ==> v.heldR[k] != c.buf && v.heldR[k] != r.buf
    requires forall k :: k in v'.heldC ==> v'.heldC[k] != r.buf
    ensures TakenApart(v, v', c, r)
  {
    NotGathered(v.heldC, c.idx.layer - 1, t.arity * c.idx.node, c, c.buf);
    NotGathered(v.heldR, r.idx.layer - 1, t.arity * r.idx.node, r, c.buf);
    NotGathered(v.heldR, r.idx.layer - 1, t.arity * r.idx.node, r, r.buf);
    assert v'.heldC[c.idx] == c.buf;
  }

  lemma NotGathered(held: Held, below: nat, first: int, w: WorkItem, b: int)
    requires !w.isLeaf ==> Gathered(held, below, first, w.inputs)
    requires forall k :: k in held ==> held[k] != b
    ensures b !in Freed(w)
  {
    forall i | 0 <= i < |Freed(w)| ensures Freed(w)[i] != b {
      assert Child(below, first, i) in held;
    }
  }

  lemma BothCanTake<D>(t: Tree<D>, v: View, c: Agenda, r: Agenda, pool: Pool, lost: nat)
    requires PairOk(t, v, c, r, pool, lost)
    ensures c.stack == [] <==> r.stack == []
    ensures c.stack != [] ==> CanTake(t, c) && CanTake(t, r)
  {
    hide DepthFirst, WipOk, Waits, Waiting, Owned, TraceOk, PairCountOk, CanTake, Collects;
    if c.stack != [] {
      Turn(t, v.done, v.pending, v.heldC, c, 0);
      Turn(t, v.done, v.pending, v.heldR, r, 0);
    }
  }

  /** Main result: when both schedulers have handed out their next items, everything is consistent again
    * and the items' buffers are apart from all that is still to be read.
    */
  lemma PairTaken<D>(t: Tree<D>, v: View, c: Agenda, r: Agenda, pool: Pool, lost: nat, wc: WorkItem, wr: WorkItem)
    requires PairOk(t, v, c, r, pool, lost) && c.stack != []
    requires CanTake(t, c) && wc == Item(t, c, GotBuf(pool.free, pool.count))
    requires
      var pool' := PoolAfter(pool, wc);
      CanTake(t, r) && wr == Item(t, r, GotBuf(pool'.free, pool'.count))
    ensures
      var l := Layer(v.pending);
      |v.done| == t.height + 3 && l <= t.height + 1 &&
      var v' := ViewAfter(t, v, l, wc.buf, wr.buf);
      && wc.idx == wr.idx == NodeId(l, v.done[l]) && 0 <= v.done[l] < Width(t, l)
      && PairOk(t, v', Taken(t, c, wc.buf), Taken(t, r, wr.buf), PoolAfter(PoolAfter(pool, wc), wr), lost)
      && TakenApart(v, v', wc, wr) && FromChildren(t, v.heldC, wc) && FromChildren(t, v.heldR, wr)
  {
    hide DepthFirst, StackOk, WipOk, More, HeldAfter, Pending, Taken, Width, Waits, Waiting, Owned, Layer, TraceOk;
    hide PoolAfter, PairCountOk, GotBuf, Apart, CanTake, AgendaOk, Freed, Gathered;
    DoneSize(t, v.done, v.pending);
    assert |r.stack| > 0 by { TakeHas(t, r); }
    Turn(t, v.done, v.pending, v.heldC, c, wc.buf);
    Turn(t, v.done, v.pending, v.heldR, r, wr.buf);
    var l := Layer(v.pending);
    FreedCount(t, v.heldC, wc);
    FreedCount(t, v.heldR, wr);
    PairCountAfter(t, v.done, v.pending, pool, wc, wr, lost);
    HeldIsAfter(t, v.done, v.pending, v.heldC, wc.buf);
    HeldIsAfter(t, v.done, v.pending, v.heldR, wr.buf);
    TraceAfter(t, v.done, v.pending, v.trace);
    PoolTurns(t, v.heldC, v.heldR, pool, l, wc, wr);
    Fresh(t, v, ViewAfter(t, v, l, wc.buf, wr.buf), wc, wr);
  }

  /** A scheduler's stack when a run starts: every leaf, the first on top. */
  function Leaves<D>(t: Tree<D>): (r: seq<WorkItem>)
    ensures |r| == Width(t, 1)
  {
    seq(Width(t, 1), k requires 0 <= k < Width(t, 1) => NewItem(t, NodeId(1, Width(t, 1) - 1 - k), true))
  }

  /** A pool in which every buffer is free, but for the lost ones. */
  ghost predicate AllFree<D>(t: Tree<D>, pool: Pool, lost: nat)
    requires t.Ok()
  {
    Owned(map[], pool.free, pool.count) && |pool.free| + lost == pool.count && pool.count <= PairPeak(t) + lost
  }

  lemma PairStart<D>(t: Tree<D>, pool: Pool, lost: nat)
    requires t.Ok() && AllFree(t, pool, lost)
    ensures PairOk(t, NewView(t), Agenda(Leaves(t), map[]), Agenda(Leaves(t), map[]), pool, lost)
    ensures Leaves(t) != []
  {
    var v := NewView(t);
    assert forall l :: 1 <= l <= t.height + 1 ==> Gap(t, v.done, l) == 0;
    NothingWaits(t, v.done, 1);
  }

  /** Main result: after a run every node has been taken, once and after its children; the bound on the
    * buffers has been reached; and all buffers but the two roots' are free.
    */
  lemma PairEnd<D>(t: Tree<D>, v: View, c: Agenda, r: Agenda, pool: Pool, lost: nat)
    requires PairOk(t, v, c, r, pool, lost) && c.stack == []
    ensures AllNodes(t, v.trace) && pool.count == PairPeak(t) + lost && |pool.free| + 2 + lost == pool.count
    ensures
      var root := NodeId(t.height + 1, 0);
      root in v.heldC && root in v.heldR && root in v.trace
  {
    TopItem(t, v.done, v.pending, v.heldC, c.stack);
    BothCanTake(t, v, c, r, pool, lost);
    AtRoot(t, v.done, v.heldC, c.stack, c.wip);
    AtRoot(t, v.done, v.heldR, r.stack, r.wip);
    hide StackOk, WipOk, Waiting, Waits, Owned, PairPeak;
    assert Width(t, t.height + 1) == 1;
  }

  /** The root is taken exactly when nothing is left on the stacks. */
  lemma RootTaken<D>(t: Tree<D>, v: View, c: Agenda, r: Agenda, pool: Pool, lost: nat)
    requires PairOk(t, v, c, r, pool, lost)
    ensures c.stack == [] <==> NodeId(t.height + 1, 0) in v.trace
  {
    var root := t.height + 1;
    hide Waits, Waiting, Owned, PairCountOk, Collects, WipOk;
    TopItem(t, v.done, v.pending, v.heldC, c.stack);
    assert Width(t, root) == 1;
    if c.stack == [] {
      PairEnd(t, v, c, r, pool, lost);
    } else {
      Room(t, v.done, v.pending);
      Unfinished(t, v.done, v.pending, Layer(v.pending), root);
    }
  }

  /** The item that empties the stacks is the root. */
  lemma LastIsRoot<D>(t: Tree<D>, v: View, v': View, c: Agenda, r: Agenda, c': Agenda, r': Agenda, pool: Pool,
                   pool': Pool, lost: nat, id: NodeId)
    requires PairOk(t, v, c, r, pool, lost) && PairOk(t, v', c', r', pool', lost)
    requires c.stack != [] && v'.trace == v.trace + [id]
    ensures c'.stack == [] <==> id == NodeId(t.height + 1, 0)
  {
    hide PairOk;
    RootTaken(t, v, c, r, pool, lost);
    RootTaken(t, v', c', r', pool', lost);
  }

  /** The next run can use the pool again; it has lost the two roots' buffers. */
  lemma RestFree<D>(t: Tree<D>, v: View, c: Agenda, r: Agenda, pool: Pool, lost: nat)
    requires PairOk(t, v, c, r, pool, lost) && c.stack == []
    ensures t.Ok() && AllFree(t, pool, lost + 2)
  {
    hide DepthFirst, AgendaOk, HeldIs, Waiting, TraceOk, PairPeak;
    PairEnd(t, v, c, r, pool, lost);
    PairArity(t, v, c, r, pool, lost);
  }

  lemma PairArity<D>(t: Tree<D>, v: View, c: Agenda, r: Agenda, pool: Pool, lost: nat)
    requires PairOk(t, v, c, r, pool, lost)
    ensures t.Ok() && |v.done| == t.height + 3 && (v.pending == 0 || 2 <= v.pending <= t.height + 1)
    ensures forall l :: 1 <= l <= t.height + 1 ==> 0 <= v.done[l] <= Width(t, l)
  {
  }
}
