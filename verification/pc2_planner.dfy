/** The depth-first scheduler of PC2: a stack of hashes to do, partly filled parents, a buffer pool. */
module Pc2Planner {
  import opened Pc2Tree

  /** The null buffer pointer; buffers are numbered as they are allocated. */
  const NULL := -1

  datatype WorkItem = WorkItem(idx: NodeId, ready: nat, isLeaf: bool, buf: int, inputs: seq<int>)

  function NewItem<D>(t: Tree<D>, idx: NodeId, isLeaf: bool): WorkItem {
    WorkItem(idx, 0, isLeaf, NULL, seq(t.arity, _ => NULL))
  }

  /** The buffer that is taken next, the pool without it, and the count of buffers with it. */
  function GotBuf(pool: seq<int>, count: nat): int { if pool == [] then count else pool[|pool| - 1] }

  function PoolLeft(pool: seq<int>): seq<int> { if pool == [] then [] else pool[..|pool| - 1] }

  function CountLeft(pool: seq<int>, count: nat): nat { if pool == [] then count + 1 else count }

  /** The pool. Contents of buffers are kept here too, so that hashing has something to write. */
  class Buffers<D> {
    var buffers: seq<int>
    var numBuffers: nat
    var contents: map<int, D>

    constructor ()
      ensures buffers == [] && numBuffers == 0 && contents == map[]
    {
      buffers, numBuffers, contents := [], 0, map[];
    }

    method Get() returns (buf: int)
      modifies this`buffers, this`numBuffers
      ensures buf == GotBuf(old(buffers), old(numBuffers)) && buffers == PoolLeft(old(buffers))
      ensures numBuffers == CountLeft(old(buffers), old(numBuffers))
    {
      if |buffers| == 0 {
        buf := numBuffers;
        numBuffers := numBuffers + 1;
      } else {
        buf := buffers[|buffers| - 1];
        buffers := buffers[..|buffers| - 1];
      }
    }

    method Put(buf: int)
      modifies this`buffers
      ensures buffers == old(buffers) + [buf]
    {
      buffers := buffers + [buf];
    }
  }

  /** Which buffer holds each hashed node whose parent is not hashed yet. */
  type Held = map<NodeId, int>

  ghost predicate Waits<D>(t: Tree<D>, done: Progress, id: NodeId)
    requires |done| == t.height + 3
  {
    1 <= id.layer <= t.height + 1 && t.arity * done[id.layer + 1] <= id.node < done[id.layer]
  }

  /** A node's children sit next to each other, one layer below it. */
  function Child(below: nat, first: int, i: int): NodeId { NodeId(below, first + i) }

  /** The first `ready` inputs are the buffers of a node's first children, the others still null. */
  ghost predicate Inputs(held: Held, below: nat, first: int, ready: int, arity: nat, inputs: seq<int>) {
    |inputs| == arity &&
    forall i :: 0 <= i < arity ==>
      if i < ready then Child(below, first, i) in held && inputs[i] == held[Child(below, first, i)]
      else inputs[i] == NULL
  }

  /** The inputs of the next parent above a layer: its hashed children, in place. */
  ghost predicate Collects<D>(t: Tree<D>, done: Progress, held: Held, layer: nat, inputs: seq<int>)
    requires layer + 1 < |done|
  {
    Inputs(held, layer, t.arity * done[layer + 1], Gap(t, done, layer), t.arity, inputs)
  }

  ghost predicate StackOk<D>(t: Tree<D>, done: Progress, pending: nat, held: Held, stack: seq<WorkItem>)
    requires |done| == t.height + 3 && pending <= t.height + 1
  {
    var leaves := Width(t, 1) - done[1];
    && leaves >= 0
    && |stack| == leaves + (if pending > 0 then 1 else 0)
    && (forall i :: 0 <= i < leaves ==> stack[i] == NewItem(t, NodeId(1, Width(t, 1) - 1 - i), true))
    && (pending > 1 ==>
          var top := stack[leaves];
          && top.idx == NodeId(pending, done[pending]) && !top.isLeaf
          && Collects(t, done, held, pending - 1, top.inputs))
  }

  /** A parent that is next in its layer and has some, but not all, of its children hashed. */
  ghost predicate Partial<D>(t: Tree<D>, done: Progress, id: NodeId)
    requires |done| == t.height + 3
  {
    2 <= id.layer <= t.height + 2 && id.node == done[id.layer] && 0 < Gap(t, done, id.layer - 1) < t.arity
  }

  ghost predicate ItemOk<D>(t: Tree<D>, done: Progress, held: Held, id: NodeId, item: WorkItem)
    requires |done| == t.height + 3 && Partial(t, done, id)
  {
    && item.idx == id && !item.isLeaf && item.ready == Gap(t, done, id.layer - 1)
    && Collects(t, done, held, id.layer - 1, item.inputs)
  }

  ghost predicate WipOk<D>(t: Tree<D>, done: Progress, held: Held, wip: map<NodeId, WorkItem>)
    requires |done| == t.height + 3
  {
    && (forall id :: id in wip <==> Partial(t, done, id))
    && (forall id :: id in wip ==> ItemOk(t, done, held, id, wip[id]))
  }

  /** Every held buffer is held once, and every pooled one is pooled once and not held. */
  ghost predicate Owned(held: Held, pool: seq<int>, count: nat) {
    && (forall id :: id in held ==> 0 <= held[id] < count && held[id] !in pool)
    && (forall a, b :: a in held && b in held && held[a] == held[b] ==> a == b)
    && (forall i :: 0 <= i < |pool| ==> 0 <= pool[i] < count)
    && (forall i, j :: 0 <= i < j < |pool| ==> pool[i] != pool[j])
  }

  /** A held buffer contains its node's digest. */
  ghost predicate Digests<D>(t: Tree<D>, held: Held, contents: map<int, D>) {
    forall id :: id in held ==> held[id] in contents && contents[held[id]] == Merkle(t, id.layer, id.node)
  }

  /** Exactly the waiting nodes hold a buffer each, and all other buffers are in the pool. */
  ghost predicate BuffersOk<D>(t: Tree<D>, done: Progress, held: Held, pool: seq<int>, count: nat, contents: map<int,
                               D>)
    requires |done| == t.height + 3
  {
    && (forall id :: id in held <==> Waits(t, done, id))
    && Owned(held, pool, count) && Digests(t, held, contents)
    && |pool| + Waiting(t, done, 1) == count
  }

  /** Buffers never exceed the peak, and have reached it once layer 2 (or a lone leaf) is hashed. */
  ghost predicate CountOk<D>(t: Tree<D>, done: Progress, count: nat)
    requires t.Ok() && |done| == t.height + 3
  {
    var last := if t.height == 0 then 1 else 2;
    count <= Peak(t) && (done[last] == Width(t, last) ==> count == Peak(t))
  }

  ghost function HeldAfter(held: Held, l: nat, id: NodeId, buf: int): Held {
    (map k | k in held && k.layer != l - 1 :: held[k])[id := buf]
  }

  /** The item on top is the next node in depth-first order, with its children's buffers. */
  lemma TopItem<D>(t: Tree<D>, done: Progress, pending: nat, held: Held, stack: seq<WorkItem>)
    requires DepthFirst(t, done, pending) && StackOk(t, done, pending, held, stack)
    ensures t.Ok() && |done| == t.height + 3 && done[Layer(pending)] >= 0
    ensures More(t, done, pending) <==> |stack| > 0
    ensures More(t, done, pending) ==>
      var w := stack[|stack| - 1];
      && w.idx == NodeId(Layer(pending), done[Layer(pending)]) && w.isLeaf == (pending == 0)
      && (pending > 0 ==> Collects(t, done, held, pending - 1, w.inputs))
  {
  }

  /** What the hash writes: a leaf's digest, or the hash of the children's contents. */
  function Digest<D>(t: Tree<D>, w: WorkItem, contents: map<int, D>): D
    requires !w.isLeaf ==> |w.inputs| == t.arity && forall i :: 0 <= i < t.arity ==> w.inputs[i] in contents
  {
    if w.isLeaf then t.leaf(w.idx.node)
    else t.hash(seq(t.arity, i requires 0 <= i < t.arity => contents[w.inputs[i]]))
  }

  lemma DigestIsMerkle<D>(t: Tree<D>, done: Progress, pending: nat, held: Held, pool: seq<int>, count: nat,
                       contents: map<int, D>, w: WorkItem)
    requires DepthFirst(t, done, pending) && BuffersOk(t, done, held, pool, count, contents)
    requires w.idx == NodeId(Layer(pending), done[Layer(pending)]) && w.isLeaf == (pending == 0)
    requires pending > 0 ==> Collects(t, done, held, pending - 1, w.inputs)
    ensures !w.isLeaf ==> |w.inputs| == t.arity && forall i :: 0 <= i < t.arity ==> w.inputs[i] in contents
    ensures Digest(t, w, contents) == Merkle(t, w.idx.layer, w.idx.node)
  {
    hide Owned, Waits, Waiting;
    if pending > 0 {
      var first := t.arity * done[pending];
      InputsHeld(t, done, pending, held, w.inputs, first);
      forall i | 0 <= i < t.arity
        ensures w.inputs[i] in contents
        ensures contents[w.inputs[i]] == Merkle(t, pending - 1, t.arity * w.idx.node + i)
      {
        assert Child(pending - 1, first, i) in held;
      }
      assert seq(t.arity, i requires 0 <= i < t.arity => contents[w.inputs[i]])
          == seq(t.arity, i requires 0 <= i < t.arity => Merkle(t, pending - 1, t.arity * w.idx.node + i));
    }
  }

  /** The waiting nodes after a hash: the node itself waits, its children no longer do. */
  lemma WaitsAfter<D>(t: Tree<D>, done: Progress, pending: nat, id: NodeId)
    requires DepthFirst(t, done, pending) && More(t, done, pending)
    ensures
      var l := Layer(pending);
      l <= t.height + 1 &&
      var done' := done[l := done[l] + 1];
      Waits(t, done', id) <==> id == NodeId(l, done[l]) || (Waits(t, done, id) && id.layer != l - 1)
  {
    Hashed(t, done, pending);
    var l := Layer(pending);
    var done' := done[l := done[l] + 1];
    assert Gap(t, done, l) >= 0;
    if l > 1 && id.layer == l - 1 {
      assert Gap(t, done', l - 1) == 0;
    }
  }

  lemma TakeBuffer(held: Held, pool: seq<int>, count: nat)
    requires Owned(held, pool, count)
    ensures
      var buf := GotBuf(pool, count);
      && Owned(held, PoolLeft(pool), CountLeft(pool, count)) && 0 <= buf < CountLeft(pool, count)
      && buf !in PoolLeft(pool) && (forall id :: id in held ==> held[id] != buf)
  {
  }

  /** A new node gets a free buffer, and the buffers of its children go to the pool. */
  lemma GiveAndReturn(held: Held, pool: seq<int>, count: nat, l: nat, id: NodeId, buf: int,
                       inputs: seq<int>, below: nat, first: int)
    requires Owned(held, pool, count) && 0 <= buf < count && buf !in pool
    requires forall k :: k in held ==> held[k] != buf
    requires inputs != [] ==> below == l - 1
    requires forall i :: 0 <= i < |inputs| ==>
      Child(below, first, i) in held && inputs[i] == held[Child(below, first, i)]
    requires id.layer == l
    ensures Owned(HeldAfter(held, l, id, buf), pool + inputs, count)
  {
    var held' := HeldAfter(held, l, id, buf);
    var pool' := pool + inputs;
    forall k | k in held' ensures 0 <= held'[k] < count && held'[k] !in pool' {
      forall n | 0 <= n < |inputs| ensures inputs[n] != held'[k] {
        assert Child(below, first, n) in held;
      }
    }
    forall i, j | 0 <= i < j < |pool'| ensures pool'[i] != pool'[j] {
      if |pool| <= j {
        var n := j - |pool|;
        assert pool'[j] == inputs[n] && Child(below, first, n) in held;
        if |pool| <= i {
          var m := i - |pool|;
          assert pool'[i] == inputs[m] && Child(below, first, m) in held;
        }
      }
    }
  }

  lemma DigestAfter<D>(t: Tree<D>, held: Held, contents: map<int, D>, id: NodeId, buf: int)
    requires Digests(t, held, contents) && forall k :: k in held ==> held[k] != buf
    ensures Digests(t, HeldAfter(held, id.layer, id, buf), contents[buf := Merkle(t, id.layer, id.node)])
  {
    hide Merkle;
  }

  lemma BuffersAfter<D>(t: Tree<D>, done: Progress, pending: nat, held: Held, pool: seq<int>, count: nat,
                     contents: map<int, D>, w: WorkItem)
    requires DepthFirst(t, done, pending) && More(t, done, pending)
    requires BuffersOk(t, done, held, pool, count, contents)
    requires w.idx == NodeId(Layer(pending), done[Layer(pending)]) && w.isLeaf == (pending == 0)
    requires pending > 0 ==> Collects(t, done, held, pending - 1, w.inputs)
    ensures
      var l := Layer(pending);
      var buf := GotBuf(pool, count);
      l <= t.height + 1 &&
      BuffersOk(t, done[l := done[l] + 1], HeldAfter(held, l, w.idx, buf),
                PoolLeft(pool) + (if pending > 0 then w.inputs else []), CountLeft(pool, count),
                contents[buf := Merkle(t, l, done[l])])
  {
    var l := Layer(pending);
    var buf := GotBuf(pool, count);
    var inputs := if pending > 0 then w.inputs else [];
    var first := if pending > 0 then t.arity * done[pending] else 0;
    WaitingAfter(t, done, pending);
    if pending > 0 {
      InputsHeld(t, done, pending, held, w.inputs, first);
    }
    var done' := done[l := done[l] + 1];
    hide DepthFirst, Waits, Merkle, Waiting, Collects, More, Owned, Digests, HeldAfter;
    TakeBuffer(held, pool, count);
    GiveAndReturn(held, PoolLeft(pool), CountLeft(pool, count), l, w.idx, buf, inputs,
                  if pending > 0 then pending - 1 else 0, first);
    DigestAfter(t, held, contents, w.idx, buf);
    HeldKeys(held, l, w.idx, buf);
  }

  lemma HeldKeys(held: Held, l: nat, id: NodeId, buf: int)
    ensures forall k :: k in HeldAfter(held, l, id, buf) <==> k == id || (k in held && k.layer != l - 1)
  {
  }

  lemma InputsHeld<D>(t: Tree<D>, done: Progress, pending: nat, held: Held, inputs: seq<int>, first: int)
    requires DepthFirst(t, done, pending) && pending > 0 && Collects(t, done, held, pending - 1, inputs)
    requires first == t.arity * done[pending]
    ensures |inputs| == t.arity && forall i :: 0 <= i < |inputs| ==>
      Child(pending - 1, first, i) in held && inputs[i] == held[Child(pending - 1, first, i)]
  {
    assert Gap(t, done, pending - 1) == t.arity;
  }

  /** What waits, and how much of it, after the next hash. */
  lemma WaitingAfter<D>(t: Tree<D>, done: Progress, pending: nat)
    requires DepthFirst(t, done, pending) && More(t, done, pending)
    ensures
      var l := Layer(pending);
      l <= t.height + 1 &&
      var done' := done[l := done[l] + 1];
      && (forall id :: Waits(t, done', id) <==>
            id == NodeId(l, done[l]) || (Waits(t, done, id) && id.layer != l - 1))
      && Waiting(t, done', 1) == Waiting(t, done, 1) + 1 - (if pending > 0 then t.arity else 0)
  {
    Hashed(t, done, pending);
    var l := Layer(pending);
    var done' := done[l := done[l] + 1];
    forall id ensures Waits(t, done', id) <==> id == NodeId(l, done[l]) || (Waits(t, done, id) && id.layer != l - 1) {
      WaitsAfter(t, done, pending, id);
    }
    WaitingChange(t, done, done', 1, l);
  }

  /** The parent's item with one more input recorded; it is created when its first child is hashed. */
  function Recorded<D>(t: Tree<D>, wip: map<NodeId, WorkItem>, parent: NodeId, slot: int, buf: int): WorkItem
    requires 0 <= slot < t.arity && (parent in wip ==> |wip[parent].inputs| == t.arity)
  {
    var item := if parent in wip then wip[parent] else NewItem(t, parent, false);
    item.(inputs := item.inputs[slot := buf], ready := item.ready + 1)
  }

  function WipAfter<D>(t: Tree<D>, wip: map<NodeId, WorkItem>, item: WorkItem): map<NodeId, WorkItem> {
    if item.ready == t.arity then wip - {item.idx} else wip[item.idx := item]
  }

  function StackAfter<D>(t: Tree<D>, stack: seq<WorkItem>, item: WorkItem): seq<WorkItem>
    requires |stack| > 0
  {
    stack[..|stack| - 1] + (if item.ready == t.arity then [item] else [])
  }

  lemma InputsKept(held: Held, l: nat, id: NodeId, buf: int, below: nat, first: int, ready: int, arity: nat,
                   inputs: seq<int>)
    requires Inputs(held, below, first, ready, arity, inputs) && below != l - 1 && below != l == id.layer
    ensures Inputs(HeldAfter(held, l, id, buf), below, first, ready, arity, inputs)
  {
  }

  lemma InputsNext(held: Held, l: nat, buf: int, first: int, ready: int, arity: nat, inputs: seq<int>)
    requires Inputs(held, l, first, ready, arity, inputs) && 0 <= ready < arity
    ensures Inputs(HeldAfter(held, l, NodeId(l, first + ready), buf), l, first, ready + 1, arity, inputs[ready := buf])
  {
    var held' := HeldAfter(held, l, NodeId(l, first + ready), buf);
    forall i | 0 <= i <= ready
      ensures Child(l, first, i) in held' && inputs[ready := buf][i] == held'[Child(l, first, i)]
    {
    }
  }

  /** The parent of the node being hashed, as the division finds it, and the slot the node takes in it. */
  lemma ParentOf<D>(t: Tree<D>, done: Progress, pending: nat)
    requires DepthFirst(t, done, pending) && More(t, done, pending)
    ensures
      var l := Layer(pending);
      && 1 <= l <= t.height + 1 && done[l] >= 0
      && done[l] / t.arity == done[l + 1] && done[l] % t.arity == Gap(t, done, l)
      && 0 <= Gap(t, done, l) < t.arity
  {
    NextParent(t, done, Layer(pending));
  }

  lemma ItemAfter<D>(t: Tree<D>, done: Progress, pending: nat, held: Held, wip: map<NodeId, WorkItem>, buf: int)
    requires DepthFirst(t, done, pending) && More(t, done, pending) && WipOk(t, done, held, wip)
    ensures
      var l := Layer(pending);
      l <= t.height + 1 &&
      var done' := done[l := done[l] + 1];
      var parent := NodeId(l + 1, done[l] / t.arity);
      && 0 <= done[l] % t.arity < t.arity && (parent in wip ==> |wip[parent].inputs| == t.arity)
      && var item := Recorded(t, wip, parent, done[l] % t.arity, buf);
      && item.idx == parent == NodeId(l + 1, done'[l + 1]) && !item.isLeaf && item.ready == Gap(t, done', l)
      && Collects(t, done', HeldAfter(held, l, NodeId(l, done[l]), buf), l, item.inputs)
  {
    ParentOf(t, done, pending);
    Hashed(t, done, pending);
    var l := Layer(pending);
    hide DepthFirst, More;
    var parent := NodeId(l + 1, done[l] / t.arity);
    var gap := Gap(t, done, l);
    assert parent in wip <==> gap > 0;
    var item := if parent in wip then wip[parent] else NewItem(t, parent, false);
    assert Inputs(held, l, t.arity * done[l + 1], gap, t.arity, item.inputs);
    InputsNext(held, l, buf, t.arity * done[l + 1], gap, t.arity, item.inputs);
  }

  lemma CollectsKept<D>(t: Tree<D>, done: Progress, held: Held, l: nat, buf: int, layer: nat, inputs: seq<int>)
    requires |done| == t.height + 3 && 1 <= l <= t.height + 1 && 1 <= layer <= t.height + 1
    requires layer != l - 1 && layer != l && Collects(t, done, held, layer, inputs)
    ensures Collects(t, done[l := done[l] + 1], HeldAfter(held, l, NodeId(l, done[l]), buf), layer, inputs)
  {
    InputsKept(held, l, NodeId(l, done[l]), buf, layer, t.arity * done[layer + 1], Gap(t, done, layer), t.arity,
               inputs);
  }

  lemma PartialAfter<D>(t: Tree<D>, done: Progress, pending: nat, id: NodeId)
    requires DepthFirst(t, done, pending) && More(t, done, pending)
    ensures
      var l := Layer(pending);
      l <= t.height + 1 &&
      var done' := done[l := done[l] + 1];
      var parent := NodeId(l + 1, done[l + 1]);
      && (Partial(t, done', id) <==> if id == parent then Gap(t, done', l) != t.arity else Partial(t, done, id))
      && (Partial(t, done, id) && id != parent ==> id.layer != l && id.layer != l + 1)
  {
    Hashed(t, done, pending);
    var l := Layer(pending);
    var done' := done[l := done[l] + 1];
    assert 0 <= Gap(t, done, l) < t.arity;
    assert l > 1 ==> Gap(t, done, l - 1) == t.arity && Gap(t, done', l - 1) == 0;
    hide DepthFirst, More, Gap;
  }

  lemma ItemKept<D>(t: Tree<D>, done: Progress, pending: nat, held: Held, id: NodeId, item: WorkItem, buf: int)
    requires DepthFirst(t, done, pending) && More(t, done, pending)
    requires Partial(t, done, id) && ItemOk(t, done, held, id, item)
    requires id != NodeId(Layer(pending) + 1, done[Layer(pending) + 1])
    ensures
      var l := Layer(pending);
      l <= t.height + 1 &&
      var done' := done[l := done[l] + 1];
      Partial(t, done', id) && ItemOk(t, done', HeldAfter(held, l, NodeId(l, done[l]), buf), id, item)
  {
    var l := Layer(pending);
    PartialAfter(t, done, pending, id);
    Hashed(t, done, pending);
    hide DepthFirst, More, Collects, Gap;
    CollectsKept(t, done, held, l, buf, id.layer - 1, item.inputs);
  }

  lemma WipOkAfter<D>(t: Tree<D>, done: Progress, pending: nat, held: Held, wip: map<NodeId, WorkItem>, buf: int)
    requires DepthFirst(t, done, pending) && More(t, done, pending) && WipOk(t, done, held, wip)
    ensures
      var l := Layer(pending);
      l <= t.height + 1 &&
      var parent := NodeId(l + 1, done[l] / t.arity);
      && 0 <= done[l] % t.arity < t.arity && (parent in wip ==> |wip[parent].inputs| == t.arity)
      && WipOk(t, done[l := done[l] + 1], HeldAfter(held, l, NodeId(l, done[l]), buf),
               WipAfter(t, wip, Recorded(t, wip, parent, done[l] % t.arity, buf)))
  {
    var l := Layer(pending);
    ParentOf(t, done, pending);
    ItemAfter(t, done, pending, held, wip, buf);
    var done' := done[l := done[l] + 1];
    var held' := HeldAfter(held, l, NodeId(l, done[l]), buf);
    var item := Recorded(t, wip, NodeId(l + 1, done[l] / t.arity), done[l] % t.arity, buf);
    var wip' := WipAfter(t, wip, item);
    hide DepthFirst, More, Recorded, Collects, Partial, ItemOk, HeldAfter, Gap;
    forall id ensures id in wip' <==> Partial(t, done', id) {
      PartialAfter(t, done, pending, id);
    }
    forall id | id in wip' ensures ItemOk(t, done', held', id, wip'[id]) {
      if id != item.idx {
        ItemKept(t, done, pending, held, id, wip[id], buf);
      } else {
        NewItemOk(t, done', held', id, item);
      }
    }
  }

  lemma NewItemOk<D>(t: Tree<D>, done: Progress, held: Held, id: NodeId, item: WorkItem)
    requires |done| == t.height + 3 && Partial(t, done, id) && item.idx == id && !item.isLeaf
    requires item.ready == Gap(t, done, id.layer - 1) && Collects(t, done, held, id.layer - 1, item.inputs)
    ensures ItemOk(t, done, held, id, item)
  {
  }

  lemma StackOkAfter<D>(t: Tree<D>, done: Progress, pending: nat, held: Held, stack: seq<WorkItem>, wip: map<NodeId,
                        WorkItem>, buf: int)
    requires DepthFirst(t, done, pending) && More(t, done, pending)
    requires StackOk(t, done, pending, held, stack) && WipOk(t, done, held, wip)
    ensures
      var l := Layer(pending);
      l <= t.height + 1 &&
      var done' := done[l := done[l] + 1];
      var parent := NodeId(l + 1, done[l] / t.arity);
      && 0 <= done[l] % t.arity < t.arity && (parent in wip ==> |wip[parent].inputs| == t.arity)
      && |stack| > 0 && Pending(t, done', l) <= t.height + 1
      && StackOk(t, done', Pending(t, done', l), HeldAfter(held, l, NodeId(l, done[l]), buf),
                 StackAfter(t, stack, Recorded(t, wip, parent, done[l] % t.arity, buf)))
  {
    ItemAfter(t, done, pending, held, wip, buf);
    Hashed(t, done, pending);
    TopItem(t, done, pending, held, stack);
    assert done[1] <= Width(t, 1);
    hide DepthFirst, Recorded, Collects, WipOk;
  }

  /** The next buffer keeps the count within the peak, and layer 2 is not finished without reaching it. */
  lemma CountAfter<D>(t: Tree<D>, done: Progress, pending: nat, pool: seq<int>, count: nat)
    requires DepthFirst(t, done, pending) && More(t, done, pending) && CountOk(t, done, count)
    requires |pool| + Waiting(t, done, 1) == count
    ensures
      var l := Layer(pending);
      l <= t.height + 1 && CountOk(t, done[l := done[l] + 1], CountLeft(pool, count))
  {
    NeverAbovePeak(t, done, pending);
    Room(t, done, pending);
    var l := Layer(pending);
    var last := if t.height == 0 then 1 else 2;
    if l == last && done[last] + 1 == Width(t, last) {
      if t.height == 0 {
        assert Waiting(t, done, 1) >= 0;
      } else {
        ReachesPeak(t, done);
      }
    }
  }

  ghost predicate Family(trace: seq<NodeId>, below: nat, first: int, arity: nat) {
    forall c :: 0 <= c < arity ==> Child(below, first, c) in trace
  }

  ghost predicate ChildrenBefore<D>(t: Tree<D>, trace: seq<NodeId>, i: nat)
    requires i < |trace|
  {
    var id := trace[i];
    id.layer > 1 ==> Family(trace[..i], id.layer - 1, t.arity * id.node, t.arity)
  }

  /** The order of the hashes so far: no node twice, and none before its children. */
  ghost predicate TraceOk<D>(t: Tree<D>, done: Progress, trace: seq<NodeId>)
    requires |done| == t.height + 3
  {
    && (forall id :: id in trace <==> 1 <= id.layer <= t.height + 1 && 0 <= id.node < done[id.layer])
    && (forall i, j :: 0 <= i < j < |trace| ==> trace[i] != trace[j])
    && (forall i :: 0 <= i < |trace| ==> ChildrenBefore(t, trace, i))
  }

  lemma TraceAfter<D>(t: Tree<D>, done: Progress, pending: nat, trace: seq<NodeId>)
    requires DepthFirst(t, done, pending) && More(t, done, pending) && TraceOk(t, done, trace)
    ensures
      var l := Layer(pending);
      l <= t.height + 1 && TraceOk(t, done[l := done[l] + 1], trace + [NodeId(l, done[l])])
  {
    Room(t, done, pending);
    var l := Layer(pending);
    var done' := done[l := done[l] + 1];
    var trace' := trace + [NodeId(l, done[l])];
    forall id ensures id in trace' <==> 1 <= id.layer <= t.height + 1 && 0 <= id.node < done'[id.layer] {
      assert id in trace' <==> id in trace || id == NodeId(l, done[l]);
    }
    forall i | 0 <= i < |trace'| ensures ChildrenBefore(t, trace', i) {
      if i < |trace| {
        assert ChildrenBefore(t, trace, i);
        assert trace'[..i] == trace[..i];
      } else if l > 1 {
        assert trace'[..i] == trace;
        ChildrenDone(t, done, pending, trace, t.arity * done[l]);
      }
    }
  }

  lemma ChildrenDone<D>(t: Tree<D>, done: Progress, pending: nat, trace: seq<NodeId>, first: int)
    requires DepthFirst(t, done, pending) && pending > 0 && TraceOk(t, done, trace) && first == t.arity * done[pending]
    ensures Family(trace, pending - 1, first, t.arity)
  {
    assert Gap(t, done, pending - 1) == t.arity;
  }

  /** Every node of the tree is hashed, once, and after its children. */
  ghost predicate AllNodes<D>(t: Tree<D>, trace: seq<NodeId>) {
    && (forall id :: id in trace <==> 1 <= id.layer <= t.height + 1 && 0 <= id.node < Width(t, id.layer))
    && (forall i, j :: 0 <= i < j < |trace| ==> trace[i] != trace[j])
    && (forall i :: 0 <= i < |trace| ==> ChildrenBefore(t, trace, i))
  }

  /** How many nodes are left to hash. */
  function Remaining<D>(t: Tree<D>, done: Progress, from: nat): int
    requires |done| == t.height + 3 && 1 <= from <= t.height + 2
    decreases t.height + 2 - from
  {
    if from == t.height + 2 then 0 else Width(t, from) - done[from] + Remaining(t, done, from + 1)
  }

  lemma {:induction false} RemainingAfter<D>(t: Tree<D>, done: Progress, layer: nat, from: nat)
    requires |done| == t.height + 3 && 1 <= from <= t.height + 2 && 1 <= layer <= t.height + 1
    ensures Remaining(t, done[layer := done[layer] + 1], from)
            == Remaining(t, done, from) - (if from <= layer then 1 else 0)
    decreases t.height + 2 - from
  {
    if from < t.height + 2 { RemainingAfter(t, done, layer, from + 1); }
  }

  lemma {:induction false} RemainingNat<D>(t: Tree<D>, done: Progress, pending: nat, from: nat)
    requires DepthFirst(t, done, pending) && 1 <= from <= t.height + 2
    ensures Remaining(t, done, from) >= 0
    decreases t.height + 2 - from
  {
    if from < t.height + 2 { RemainingNat(t, done, pending, from + 1); }
  }

  /** With the stack empty, the root is the only waiting node and the only recorded input. */
  lemma AtRoot<D>(t: Tree<D>, done: Progress, held: Held, stack: seq<WorkItem>, wip: map<NodeId, WorkItem>)
    requires DepthFirst(t, done, 0) && StackOk(t, done, 0, held, stack) && stack == [] && WipOk(t, done, held, wip)
    ensures wip.Keys == {NodeId(t.height + 2, 0)}
    ensures
      var root := NodeId(t.height + 1, 0);
      var item := wip[NodeId(t.height + 2, 0)];
      |item.inputs| == t.arity && root in held && item.inputs[0] == held[root] && item.inputs[1] == NULL
    ensures Waiting(t, done, 1) == 1
    ensures forall l :: 1 <= l <= t.height + 1 ==> done[l] == Width(t, l)
  {
    forall l | 1 <= l <= t.height + 1 ensures done[l] == Width(t, l) {
      Finished(t, done, l);
    }
    forall l | 1 <= l <= t.height ensures Gap(t, done, l) == 0 {
      WidthNext(t, l);
    }
    assert Width(t, t.height + 1) == 1;
    assert Gap(t, done, t.height + 1) == 1;
    WaitingAtEnd(t, done, 1);
    var top := NodeId(t.height + 2, 0);
    forall id ensures id in wip <==> id == top {
      assert Partial(t, done, top);
    }
    assert ItemOk(t, done, held, top, wip[top]);
    assert Child(t.height + 1, 0, 0) == NodeId(t.height + 1, 0);
  }

  lemma {:induction false} WaitingAtEnd<D>(t: Tree<D>, done: Progress, from: nat)
    requires |done| == t.height + 3 && 1 <= from <= t.height + 1
    requires forall l :: from <= l <= t.height ==> Gap(t, done, l) == 0
    requires Gap(t, done, t.height + 1) == 1
    ensures Waiting(t, done, from) == 1
    decreases t.height + 1 - from
  {
    if from <= t.height {
      WaitingAtEnd(t, done, from + 1);
    } else {
      assert Waiting(t, done, from + 1) == 0;
    }
  }

  /** A scheduler's stack and its partly filled parents. */
  datatype Agenda = Agenda(stack: seq<WorkItem>, wip: map<NodeId, WorkItem>)

  function ParentId<D>(t: Tree<D>, id: NodeId): NodeId
    requires t.arity > 0
  {
    NodeId(id.layer + 1, id.node / t.arity)
  }

  /** The item on top can be taken: its slot in its parent exists. */
  predicate CanTake<D>(t: Tree<D>, a: Agenda) {
    && |a.stack| > 0 && t.arity > 0
    && var id := a.stack[|a.stack| - 1].idx;
    0 <= id.node % t.arity < t.arity && (ParentId(t, id) in a.wip ==> |a.wip[ParentId(t, id)].inputs| == t.arity)
  }

  /** The item that is taken next, with its buffer. */
  function Item<D>(t: Tree<D>, a: Agenda, buf: int): WorkItem
    requires CanTake(t, a)
  {
    a.stack[|a.stack| - 1].(buf := buf)
  }

  function Taken<D>(t: Tree<D>, a: Agenda, buf: int): Agenda
    requires CanTake(t, a)
  {
    var id := a.stack[|a.stack| - 1].idx;
    var item := Recorded(t, a.wip, ParentId(t, id), id.node % t.arity, buf);
    Agenda(StackAfter(t, a.stack, item), WipAfter(t, a.wip, item))
  }

  /** The inputs that go back to the pool with an item. */
  function Freed(w: WorkItem): seq<int> { if w.isLeaf then [] else w.inputs }

  /** Everything the scheduler keeps true between calls. */
  ghost predicate Consistent<D>(t: Tree<D>, done: Progress, pending: nat, held: Held, trace: seq<NodeId>,
                             stack: seq<WorkItem>, wip: map<NodeId, WorkItem>,
                             pool: seq<int>, count: nat, contents: map<int, D>)
  {
    && DepthFirst(t, done, pending) && StackOk(t, done, pending, held, stack) && WipOk(t, done, held, wip)
    && BuffersOk(t, done, held, pool, count, contents) && CountOk(t, done, count) && TraceOk(t, done, trace)
  }

  /** What one call does to all of it. */
  lemma StepConsistent<D>(t: Tree<D>, done: Progress, pending: nat, held: Held, trace: seq<NodeId>,
                       stack: seq<WorkItem>, wip: map<NodeId, WorkItem>,
                       pool: seq<int>, count: nat, contents: map<int, D>)
    requires Consistent(t, done, pending, held, trace, stack, wip, pool, count, contents) && stack != []
    ensures
      var a := Agenda(stack, wip);
      var buf := GotBuf(pool, count);
      CanTake(t, a) &&
      var w := Item(t, a, buf);
      var l := w.idx.layer;
      && |done| == t.height + 3 && 1 <= l <= t.height + 1 && l == Layer(pending) && w.idx.node == done[l]
      && (!w.isLeaf ==> |w.inputs| == t.arity && forall i :: 0 <= i < t.arity ==> w.inputs[i] in contents)
      && Digest(t, w, contents) == Merkle(t, l, w.idx.node)
      && var done' := done[l := done[l] + 1];
      var a' := Taken(t, a, buf);
      && Consistent(t, done', Pending(t, done', l), HeldAfter(held, l, w.idx, buf), trace + [w.idx],
                    a'.stack, a'.wip, PoolLeft(pool) + Freed(w), CountLeft(pool, count),
                    contents[buf := Digest(t, w, contents)])
  {
    hide DepthFirst, StackOk, WipOk, BuffersOk, CountOk, TraceOk, Recorded, Digest, Merkle, More, Collects, HeldAfter;
    hide StackAfter, WipAfter, Pending;
    TopItem(t, done, pending, held, stack);
    var buf := GotBuf(pool, count);
    var w := stack[|stack| - 1].(buf := buf);
    Hashed(t, done, pending);
    DigestIsMerkle(t, done, pending, held, pool, count, contents, w);
    BuffersAfter(t, done, pending, held, pool, count, contents, w);
    AgendaAfter(t, done, pending, held, Agenda(stack, wip), buf);
    PoolAndWaiting(t, done, held, pool, count, contents);
    CountAfter(t, done, pending, pool, count);
    TraceAfter(t, done, pending, trace);
    PendingIs(t, done[Layer(pending) := done[Layer(pending)] + 1], Layer(pending));
  }

  /** Stack and open parents stay in step with the progress. */
  lemma AgendaAfter<D>(t: Tree<D>, done: Progress, pending: nat, held: Held, a: Agenda, buf: int)
    requires DepthFirst(t, done, pending) && More(t, done, pending)
    requires StackOk(t, done, pending, held, a.stack) && WipOk(t, done, held, a.wip)
    ensures CanTake(t, a)
    ensures
      var l := Layer(pending);
      var id := NodeId(l, done[l]);
      && l <= t.height + 1 && Item(t, a, buf).idx == id
      && var done' := done[l := done[l] + 1];
      && StackOk(t, done', Pending(t, done', l), HeldAfter(held, l, id, buf), Taken(t, a, buf).stack)
      && WipOk(t, done', HeldAfter(held, l, id, buf), Taken(t, a, buf).wip)
  {
    hide DepthFirst, StackOk, WipOk, Recorded, More, Collects, HeldAfter, StackAfter, WipAfter, Pending;
    TopItem(t, done, pending, held, a.stack);
    ItemAfter(t, done, pending, held, a.wip, buf);
    WipOkAfter(t, done, pending, held, a.wip, buf);
    StackOkAfter(t, done, pending, held, a.stack, a.wip, buf);
  }

  /** An open parent is filed under its own index. */
  lemma RecordedId<D>(t: Tree<D>, done: Progress, pending: nat, held: Held, trace: seq<NodeId>,
                   stack: seq<WorkItem>, wip: map<NodeId, WorkItem>,
                   pool: seq<int>, count: nat, contents: map<int, D>)
    requires Consistent(t, done, pending, held, trace, stack, wip, pool, count, contents)
    ensures forall id :: id in wip ==> wip[id].idx == id
  {
    hide StackOk, BuffersOk, CountOk, TraceOk, Partial, Collects;
    forall id | id in wip ensures wip[id].idx == id {
      assert Partial(t, done, id);
      assert ItemOk(t, done, held, id, wip[id]);
    }
  }

  lemma RecordedIs<D>(t: Tree<D>, wip: map<NodeId, WorkItem>, parent: NodeId, slot: int, buf: int)
    requires 0 <= slot < t.arity && (parent in wip ==> |wip[parent].inputs| == t.arity && wip[parent].idx == parent)
    ensures Recorded(t, wip, parent, slot, buf).idx == parent
  {
  }

  lemma PendingIs<D>(t: Tree<D>, done: Progress, l: nat)
    requires l + 1 < |done|
    ensures Pending(t, done, l) == if Gap(t, done, l) == t.arity then l + 1 else 0
  {
  }

  lemma PoolAndWaiting<D>(t: Tree<D>, done: Progress, held: Held, pool: seq<int>, count: nat, contents: map<int, D>)
    requires |done| == t.height + 3 && BuffersOk(t, done, held, pool, count, contents)
    ensures |pool| + Waiting(t, done, 1) == count
  {
  }

  /** What the hash of each node wrote, in the order of the hashes. */
  ghost predicate ResultsOk<D>(t: Tree<D>, trace: seq<NodeId>, results: seq<(NodeId, D)>) {
    && |results| == |trace|
    && forall i :: 0 <= i < |trace| ==> results[i] == (trace[i], Merkle(t, trace[i].layer, trace[i].node))
  }

  class Scheduler<D> {
    const t: Tree<D>
    const bufs: Buffers<D>
    var stack: seq<WorkItem>
    var wip: map<NodeId, WorkItem>
    var hashCount: nat
    /** What the hash callback has been given and has computed. */
    var results: seq<(NodeId, D)>
    ghost var done: Progress
    ghost var pending: nat
    ghost var held: Held
    ghost var trace: seq<NodeId>

    ghost predicate Valid()
      reads this, bufs
    {
      && Consistent(t, done, pending, held, trace, stack, wip, bufs.buffers, bufs.numBuffers, bufs.contents)
      && hashCount == |trace| && ResultsOk(t, trace, results)
    }

    constructor (t: Tree<D>, bufs: Buffers<D>)
      requires t.Ok() && bufs.buffers == [] && bufs.numBuffers == 0
      ensures Valid() && this.t == t && this.bufs == bufs && trace == [] && stack != []
      ensures Remaining(t, done, 1) == Nodes(t, 1)
    {
      this.t, this.bufs := t, bufs;
      var stack: seq<WorkItem>, i := [], 0;
      var initialNodes := Width(t, 1);
      while i < initialNodes
        invariant 0 <= i <= initialNodes && |stack| == i
        invariant forall k :: 0 <= k < i ==> stack[k] == NewItem(t, NodeId(1, initialNodes - 1 - k), true)
      {
        stack := stack + [NewItem(t, NodeId(1, initialNodes - i - 1), true)];
        i := i + 1;
      }
      this.stack, wip, hashCount, results := stack, map[], 0, [];
      done, pending, held, trace := seq(t.height + 3, _ => 0), 0, map[], [];
      Start(t, stack, bufs.contents);
    }

    /** Take the top item off the stack and give it a buffer. */
    method Pop() returns (w: WorkItem)
      requires CanTake(t, Agenda(stack, wip))
      modifies this`stack, bufs`buffers, bufs`numBuffers
      ensures w == Item(t, old(Agenda(stack, wip)), GotBuf(old(bufs.buffers), old(bufs.numBuffers)))
      ensures stack == old(stack)[..|old(stack)| - 1]
      ensures bufs.buffers == PoolLeft(old(bufs.buffers))
      ensures bufs.numBuffers == CountLeft(old(bufs.buffers), old(bufs.numBuffers))
    {
      w := stack[|stack| - 1];
      stack := stack[..|stack| - 1];
      var buf := bufs.Get();
      w := w.(buf := buf);
    }

    /** Give an item's input buffers back to the pool. */
    method ReturnInputs(w: WorkItem)
      modifies bufs`buffers
      ensures bufs.buffers == old(bufs.buffers) + Freed(w)
    {
      if !w.isLeaf {
        for i := 0 to |w.inputs|
          invariant bufs.buffers == old(bufs.buffers) + w.inputs[..i]
        {
          bufs.Put(w.inputs[i]);
        }
        assert w.inputs[..|w.inputs|] == w.inputs;
      }
    }

    /** Record an item with its parent, which moves to the stack once its inputs are all there. */
    method Record(w: WorkItem, ghost a: Agenda)
      requires CanTake(t, a) && w == Item(t, a, w.buf) && stack == a.stack[..|a.stack| - 1] && wip == a.wip
      requires forall id :: id in wip ==> wip[id].idx == id
      modifies this`stack, this`wip
      ensures Agenda(stack, wip) == Taken(t, a, w.buf)
    {
      var parent := NodeId(w.idx.layer + 1, w.idx.node / t.arity);
      var item := Recorded(t, wip, parent, w.idx.node % t.arity, w.buf);
      RecordedIs(t, wip, parent, w.idx.node % t.arity, w.buf);
      if item.ready == t.arity {
        stack := stack + [item];
        wip := wip - {parent};
      } else {
        wip := wip[parent := item];
      }
    }

    /** The form without a hash: hand the top item out with its buffer, its inputs pooled already. */
    method Take(last: WorkItem) returns (more: bool, work: WorkItem)
      requires stack != [] ==> CanTake(t, Agenda(stack, wip))
      requires forall id :: id in wip ==> wip[id].idx == id
      modifies this`stack, this`wip, this`hashCount, bufs`buffers, bufs`numBuffers
      ensures more <==> stack != []
      ensures old(stack) == [] ==>
        && work == last && stack == [] && wip == old(wip) && hashCount == old(hashCount)
        && bufs.buffers == old(bufs.buffers) && bufs.numBuffers == old(bufs.numBuffers)
      ensures old(stack) != [] ==>
        && work == Item(t, old(Agenda(stack, wip)), GotBuf(old(bufs.buffers), old(bufs.numBuffers)))
        && Agenda(stack, wip) == Taken(t, old(Agenda(stack, wip)), work.buf)
        && bufs.buffers == PoolLeft(old(bufs.buffers)) + Freed(work) && hashCount == old(hashCount) + 1
        && bufs.numBuffers == CountLeft(old(bufs.buffers), old(bufs.numBuffers))
    {
      hide GotBuf, PoolLeft, CountLeft, Freed;
      if |stack| == 0 {
        return false, last;
      }
      ghost var a := Agenda(stack, wip);
      work := Pop();
      hashCount := hashCount + 1;
      ReturnInputs(work);
      Record(work, a);
      more := |stack| != 0;
    }

    /** Take the top item, hash it, and only then return its inputs and record it. */
    method HashTop()
      requires CanTake(t, Agenda(stack, wip)) && forall id :: id in wip ==> wip[id].idx == id
      requires
        var w := Item(t, Agenda(stack, wip), GotBuf(bufs.buffers, bufs.numBuffers));
        !w.isLeaf ==> |w.inputs| == t.arity && forall i :: 0 <= i < t.arity ==> w.inputs[i] in bufs.contents
      modifies this`stack, this`wip, this`hashCount, this`results, bufs
      ensures
        var a, pool, count := old(Agenda(stack, wip)), old(bufs.buffers), old(bufs.numBuffers);
        var w := Item(t, a, GotBuf(pool, count));
        var digest := Digest(t, w, old(bufs.contents));
        && Agenda(stack, wip) == Taken(t, a, w.buf) && hashCount == old(hashCount) + 1
        && bufs.buffers == PoolLeft(pool) + Freed(w) && bufs.numBuffers == CountLeft(pool, count)
        && bufs.contents == old(bufs.contents)[w.buf := digest] && results == old(results) + [(w.idx, digest)]
    {
      hide Digest, GotBuf, PoolLeft, CountLeft, Freed, Recorded, StackAfter, WipAfter;
      ghost var a := Agenda(stack, wip);
      var w := Pop();
      var digest := Digest(t, w, bufs.contents);
      bufs.contents := bufs.contents[w.buf := digest];
      results := results + [(w.idx, digest)];
      hashCount := hashCount + 1;
      ReturnInputs(w);
      Record(w, a);
    }

    /** Take the top item, hash it, and hand its buffer to its parent, which joins the stack when all
      * its inputs are there. False is returned at the root, and only there.
      */
    method Next() returns (more: bool)
      requires Valid()
      modifies this, bufs
      ensures Valid()
      ensures old(stack) == [] ==>
        !more && trace == old(trace) && bufs.buffers == old(bufs.buffers) && bufs.numBuffers == old(bufs.numBuffers)
      ensures old(stack) != [] ==>
        && trace == old(trace) + [old(stack)[|old(stack)| - 1].idx]
        && Remaining(t, done, 1) == Remaining(t, old(done), 1) - 1
      ensures more <==> stack != []
      ensures more <==> NodeId(t.height + 1, 0) !in trace
    {
      hide Consistent, Digest, Remaining, Pending, HeldAfter, GotBuf, PoolLeft, CountLeft, Layer, Freed, Merkle, Taken;
      hide Recorded, StackAfter, WipAfter, Width;
      if |stack| == 0 {
        RootHashed(t, done, pending, held, trace, stack, wip, bufs.buffers, bufs.numBuffers, bufs.contents);
        return false;
      }
      StepConsistent(t, done, pending, held, trace, stack, wip, bufs.buffers, bufs.numBuffers, bufs.contents);
      RecordedId(t, done, pending, held, trace, stack, wip, bufs.buffers, bufs.numBuffers, bufs.contents);
      ghost var w := Item(t, Agenda(stack, wip), GotBuf(bufs.buffers, bufs.numBuffers));
      HashTop();
      held, trace := HeldAfter(held, w.idx.layer, w.idx, w.buf), trace + [w.idx];
      RemainingAfter(t, done, w.idx.layer, 1);
      done := done[w.idx.layer := done[w.idx.layer] + 1];
      pending := Pending(t, done, w.idx.layer);
      more := |stack| != 0;
      RootHashed(t, done, pending, held, trace, stack, wip, bufs.buffers, bufs.numBuffers, bufs.contents);
    }

    /** The checks the source asserts once the reduction has ended. */
    method IsDone() returns (done: bool)
      requires Valid()
      ensures stack == [] ==> done
    {
      if stack == [] {
        Outcome(t, this.done, pending, held, trace, stack, wip, bufs.buffers, bufs.numBuffers, bufs.contents);
      }
      done := false;
      if |wip| == 1 {
        var id :| id in wip;
        done := |wip[id].inputs| > 1 && wip[id].inputs[0] != NULL && wip[id].inputs[1] == NULL;
      }
    }

    /** Reduce the whole tree and return the root's buffer. */
    method Run() returns (root: int)
      requires Valid() && stack != []
      modifies this, bufs
      ensures Valid() && stack == [] && AllNodes(t, trace) && ResultsOk(t, trace, results)
      ensures root in bufs.contents && bufs.contents[root] == Merkle(t, t.height + 1, 0)
      ensures bufs.numBuffers == Peak(t) && |bufs.buffers| == Peak(t) - 1
      ensures forall b :: 0 <= b < bufs.numBuffers ==> (b in bufs.buffers <==> b != root)
    {
      hide Consistent, Remaining, AllNodes, Merkle, Peak;
      var more := true;
      RemainingLeft(t, done, pending, held, trace, stack, wip, bufs.buffers, bufs.numBuffers, bufs.contents);
      while more
        invariant Valid() && (more <==> stack != [])
        invariant |done| == t.height + 3 && Remaining(t, done, 1) >= 0
        decreases Remaining(t, done, 1)
      {
        more := Next();
        RemainingLeft(t, done, pending, held, trace, stack, wip, bufs.buffers, bufs.numBuffers, bufs.contents);
      }
      Outcome(t, done, pending, held, trace, stack, wip, bufs.buffers, bufs.numBuffers, bufs.contents);
      var id :| id in wip;
      root := wip[id].inputs[0];
    }
  }

  lemma RemainingLeft<D>(t: Tree<D>, done: Progress, pending: nat, held: Held, trace: seq<NodeId>,
                      stack: seq<WorkItem>, wip: map<NodeId, WorkItem>,
                      pool: seq<int>, count: nat, contents: map<int, D>)
    requires Consistent(t, done, pending, held, trace, stack, wip, pool, count, contents)
    ensures |done| == t.height + 3 && Remaining(t, done, 1) >= 0
  {
    RemainingNat(t, done, pending, 1);
  }

  /** What is left when `next` has returned false. */
  lemma Outcome<D>(t: Tree<D>, done: Progress, pending: nat, held: Held, trace: seq<NodeId>,
                stack: seq<WorkItem>, wip: map<NodeId, WorkItem>,
                pool: seq<int>, count: nat, contents: map<int, D>)
    requires Consistent(t, done, pending, held, trace, stack, wip, pool, count, contents) && stack == []
    ensures
      var top := NodeId(t.height + 2, 0);
      && wip.Keys == {top} && |wip| == 1 && |wip[top].inputs| == t.arity >= 2
      && var root := wip[top].inputs[0];
      && root != NULL && wip[top].inputs[1] == NULL
      && root in contents && contents[root] == Merkle(t, t.height + 1, 0)
      && (forall b :: 0 <= b < count ==> (b in pool <==> b != root))
    ensures count == Peak(t) == |pool| + 1
    ensures AllNodes(t, trace)
  {
    TopItem(t, done, pending, held, stack);
    AtRoot(t, done, held, stack, wip);
    var top, root := NodeId(t.height + 2, 0), NodeId(t.height + 1, 0);
    assert |wip.Keys| == 1;
    hide StackOk, WipOk, Waiting, Merkle, Peak;
    RestPooled(pool, count, held[root]);
  }

  lemma {:induction false} DistinctSize(s: seq<int>)
    requires forall i, j :: 0 <= i < j < |s| ==> s[i] != s[j]
    ensures |set x | x in s| == |s|
  {
    if s != [] {
      var n := |s| - 1;
      DistinctSize(s[..n]);
      assert (set x | x in s) == (set x | x in s[..n]) + {s[n]};
    }
  }

  function Range(n: nat): (r: set<int>)
    ensures |r| == n && forall x :: x in r <==> 0 <= x < n
  {
    if n == 0 then {} else Range(n - 1) + {n - 1}
  }

  /** A pool of all buffers but one leaves out just that one. */
  lemma RestPooled(pool: seq<int>, count: nat, held: int)
    requires forall i, j :: 0 <= i < j < |pool| ==> pool[i] != pool[j]
    requires forall i :: 0 <= i < |pool| ==> 0 <= pool[i] < count
    requires |pool| + 1 == count && held !in pool && 0 <= held < count
    ensures forall b :: 0 <= b < count ==> (b in pool <==> b != held)
  {
    var all, pooled := Range(count), set x | x in pool;
    DistinctSize(pool);
    assert pooled <= all - {held};
    SubsetEqual(pooled, all - {held});
    forall b | 0 <= b < count ensures b in pool <==> b != held {
      assert b in pool <==> b in pooled;
      assert b in all;
    }
  }

  lemma SubsetEqual(a: set<int>, b: set<int>)
    requires a <= b && |a| >= |b|
    ensures a == b
  {
    assert |b - a| == |b| - |a|;
  }

  /** How many nodes the layers from one up have. */
  function Nodes<D>(t: Tree<D>, from: nat): nat
    requires 1 <= from <= t.height + 2
    decreases t.height + 2 - from
  {
    if from == t.height + 2 then 0 else Width(t, from) + Nodes(t, from + 1)
  }

  lemma Start<D>(t: Tree<D>, stack: seq<WorkItem>, contents: map<int, D>)
    requires t.Ok() && |stack| == Width(t, 1)
    requires forall k :: 0 <= k < |stack| ==> stack[k] == NewItem(t, NodeId(1, Width(t, 1) - 1 - k), true)
    ensures
      var done := seq(t.height + 3, _ => 0);
      && Consistent(t, done, 0, map[], [], stack, map[], [], 0, contents)
      && Remaining(t, done, 1) == Nodes(t, 1)
  {
    var done := seq(t.height + 3, _ => 0);
    assert forall l :: 1 <= l <= t.height + 1 ==> Gap(t, done, l) == 0;
    NothingWaits(t, done, 1);
    NothingDone(t, done, 1);
  }

  lemma {:induction false} NothingWaits<D>(t: Tree<D>, done: Progress, from: nat)
    requires |done| == t.height + 3 && 1 <= from <= t.height + 2
    requires forall l :: 1 <= l <= t.height + 1 ==> Gap(t, done, l) == 0
    ensures Waiting(t, done, from) == 0
    decreases t.height + 2 - from
  {
    if from < t.height + 2 { NothingWaits(t, done, from + 1); }
  }

  lemma {:induction false} NothingDone<D>(t: Tree<D>, done: Progress, from: nat)
    requires |done| == t.height + 3 && 1 <= from <= t.height + 2
    requires forall l :: 1 <= l <= t.height + 1 ==> done[l] == 0
    ensures Remaining(t, done, from) == Nodes(t, from)
    decreases t.height + 2 - from
  {
    if from < t.height + 2 { NothingDone(t, done, from + 1); }
  }

  /** The root is hashed exactly when nothing is left on the stack. */
  lemma RootHashed<D>(t: Tree<D>, done: Progress, pending: nat, held: Held, trace: seq<NodeId>,
                   stack: seq<WorkItem>, wip: map<NodeId, WorkItem>,
                   pool: seq<int>, count: nat, contents: map<int, D>)
    requires Consistent(t, done, pending, held, trace, stack, wip, pool, count, contents)
    ensures stack == [] <==> NodeId(t.height + 1, 0) in trace
  {
    var root := t.height + 1;
    TopItem(t, done, pending, held, stack);
    assert Width(t, root) == 1;
    if stack == [] {
      AtRoot(t, done, held, stack, wip);
    } else {
      Room(t, done, pending);
      Unfinished(t, done, pending, Layer(pending), root);
    }
  }
}