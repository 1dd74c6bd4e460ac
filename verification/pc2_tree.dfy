/** The tree a PC2 scheduler reduces, and how far a depth-first reduction of it can be. */
module Pc2Tree {
  import opened RingMath

  datatype NodeId = NodeId(layer: nat, node: int)

  /** A perfect tree over arity^height leaf hashes. Layer 1 holds the leaves, layer height + 1 the root. */
  datatype Tree<!D> = Tree(arity: nat, height: nat, leaf: int -> D, hash: seq<D> -> D) {
    predicate Ok() { arity >= 2 }
  }

  /** How many nodes a layer has. */
  function Width<D>(t: Tree<D>, layer: nat): nat
    requires 1 <= layer <= t.height + 1
  {
    Pow(t.arity, t.height + 1 - layer)
  }

  /** The recursive definition of a node's digest. */
  function Merkle<D>(t: Tree<D>, layer: nat, node: int): D
    decreases layer
  {
    if layer <= 1 then t.leaf(node)
    else t.hash(seq(t.arity, i requires 0 <= i < t.arity => Merkle(t, layer - 1, t.arity * node + i)))
  }

  /** How many nodes of each layer are hashed; index 0 is unused and the layer above the root is empty. */
  type Progress = seq<int>

  /** Nodes of a layer that are hashed while their parent is not. */
  function Gap<D>(t: Tree<D>, done: Progress, layer: nat): int
    requires layer + 1 < |done|
  {
    done[layer] - t.arity * done[layer + 1]
  }

  /** The reduction is depth first: every layer is less than one parent ahead, except under the
    * parent `pending` (0 for none), whose children are all there and below which nothing is left.
    */
  ghost predicate DepthFirst<D>(t: Tree<D>, done: Progress, pending: nat) {
    && t.Ok() && |done| == t.height + 3 && done[t.height + 2] == 0
    && (pending == 0 || 2 <= pending <= t.height + 1)
    && (forall l :: 1 <= l <= t.height + 1 ==> 0 <= done[l] <= Width(t, l))
    && (forall l :: 1 <= l <= t.height + 1 ==> 0 <= Gap(t, done, l))
    && (forall l :: 1 <= l <= t.height + 1 && l + 1 != pending ==> Gap(t, done, l) < t.arity)
    && (forall l :: 1 <= l && l + 1 < pending ==> Gap(t, done, l) == 0)
    && (pending > 0 ==> Gap(t, done, pending - 1) == t.arity)
  }

  /** The layer hashed next: the pending parent, or else a leaf. */
  function Layer(pending: nat): nat { if pending > 0 then pending else 1 }

  predicate More<D>(t: Tree<D>, done: Progress, pending: nat)
    requires |done| == t.height + 3
  {
    pending > 0 || done[1] < Width(t, 1)
  }

  /** All hashed nodes that wait for their parent, from a layer up. */
  function Waiting<D>(t: Tree<D>, done: Progress, from: nat): int
    requires |done| == t.height + 3 && 1 <= from <= t.height + 2
    decreases t.height + 2 - from
  {
    if from == t.height + 2 then 0 else Gap(t, done, from) + Waiting(t, done, from + 1)
  }

  function Pending<D>(t: Tree<D>, done: Progress, layer: nat): nat
    requires layer + 1 < |done|
  {
    if Gap(t, done, layer) == t.arity then layer + 1 else 0
  }

  lemma WidthNext<D>(t: Tree<D>, layer: nat)
    requires t.Ok() && 1 <= layer <= t.height
    ensures Width(t, layer) == t.arity * Width(t, layer + 1) && Width(t, t.height + 1) == 1
  {
  }

  /** The next layer has a node left to hash. */
  lemma Room<D>(t: Tree<D>, done: Progress, pending: nat)
    requires DepthFirst(t, done, pending) && More(t, done, pending)
    ensures done[Layer(pending)] < Width(t, Layer(pending))
  {
    if pending > 0 {
      WidthNext(t, pending - 1);
      var w := Width(t, pending);
      MulGap(t.arity, w, done[pending]);
    }
  }

  /** While a layer is unfinished, so are all above it. */
  lemma {:induction false} Unfinished<D>(t: Tree<D>, done: Progress, pending: nat, from: nat, layer: nat)
    requires DepthFirst(t, done, pending) && 1 <= from <= layer <= t.height + 1 && done[from] < Width(t, from)
    ensures done[layer] < Width(t, layer)
    decreases layer
  {
    if from < layer {
      Unfinished(t, done, pending, from, layer - 1);
      WidthNext(t, layer - 1);
      assert 0 <= Gap(t, done, layer - 1);
      var w := Width(t, layer);
      MulGap(t.arity, w, done[layer]);
    }
  }

  /** Hashing the next node keeps the order depth first. */
  lemma Hashed<D>(t: Tree<D>, done: Progress, pending: nat)
    requires DepthFirst(t, done, pending) && More(t, done, pending)
    ensures
      var l := Layer(pending);
      var done' := done[l := done[l] + 1];
      && l <= t.height + 1 && DepthFirst(t, done', Pending(t, done', l))
      && Gap(t, done', l) == Gap(t, done, l) + 1
      && (l > 1 ==> Gap(t, done', l - 1) == 0)
      && (forall k :: 1 <= k <= t.height + 1 && k != l && k != l - 1 ==> Gap(t, done', k) == Gap(t, done, k))
  {
    Room(t, done, pending);
    GapsAfter(t, done, pending);
    hide Width, Gap;
  }

  lemma GapsAfter<D>(t: Tree<D>, done: Progress, pending: nat)
    requires DepthFirst(t, done, pending) && More(t, done, pending)
    requires done[Layer(pending)] < Width(t, Layer(pending))
    ensures
      var l := Layer(pending);
      var done' := done[l := done[l] + 1];
      && Gap(t, done', l) == Gap(t, done, l) + 1
      && (l > 1 ==> Gap(t, done', l - 1) == 0)
      && (l == t.height + 1 ==> Gap(t, done', l) == 1)
      && (forall k :: 1 <= k <= t.height + 1 && k != l && k != l - 1 ==> Gap(t, done', k) == Gap(t, done, k))
  {
    var l := Layer(pending);
    var done' := done[l := done[l] + 1];
    if l > 1 {
      Distribute(t.arity, done[l]);
    }
    if l == t.height + 1 {
      RootOnce(t, done);
    }
    hide Width;
    GapsElsewhere(t, done, done', l);
  }

  lemma RootOnce<D>(t: Tree<D>, done: Progress)
    requires |done| == t.height + 3 && done[t.height + 2] == 0 && 0 <= done[t.height + 1] < Width(t, t.height + 1)
    ensures done[t.height + 1] == 0 && Gap(t, done, t.height + 1) == 0
  {
  }

  lemma GapsElsewhere<D>(t: Tree<D>, done: Progress, done': Progress, l: nat)
    requires 1 <= l <= t.height + 1 && |done| == t.height + 3 && done' == done[l := done[l] + 1]
    ensures forall k :: 1 <= k <= t.height + 1 && k != l && k != l - 1 ==> Gap(t, done', k) == Gap(t, done, k)
  {
  }

  lemma {:induction false} WaitingChange<D>(t: Tree<D>, done: Progress, done': Progress, from: nat, layer: nat)
    requires |done| == |done'| == t.height + 3 && 1 <= from <= t.height + 2 && 1 <= layer <= t.height + 1
    requires forall k :: 1 <= k <= t.height + 1 && k != layer && k != layer - 1 ==> Gap(t, done', k) == Gap(t, done, k)
    requires Gap(t, done', layer) == Gap(t, done, layer) + 1
    requires layer > 1 ==> Gap(t, done, layer - 1) == t.arity && Gap(t, done', layer - 1) == 0
    ensures Waiting(t, done', from) == Waiting(t, done, from)
              + (if from <= layer then 1 else 0) - (if layer > 1 && from <= layer - 1 then t.arity else 0)
    decreases t.height + 2 - from
  {
    if from < t.height + 2 {
      WaitingChange(t, done, done', from + 1, layer);
    }
  }

  /** From a layer up, unfinished layers hold at most arity - 1 waiting nodes each, and the root none. */
  lemma {:induction false} WaitingAtMost<D>(t: Tree<D>, done: Progress, pending: nat, from: nat)
    requires DepthFirst(t, done, pending) && pending <= from <= t.height + 2 && 1 <= from
    requires forall l :: from <= l <= t.height + 1 ==> done[l] < Width(t, l)
    ensures Waiting(t, done, from) <= if from <= t.height + 1 then (t.height + 1 - from) * (t.arity - 1) else 0
    decreases t.height + 2 - from
  {
    if from == t.height + 1 {
      assert Width(t, from) == 1;
      assert Gap(t, done, from) == 0;
    } else if from < t.height + 1 {
      WaitingAtMost(t, done, pending, from + 1);
      assert Gap(t, done, from) < t.arity;
      hide DepthFirst, Gap, Width;
      OneMoreLayer(t.height - from, t.arity - 1);
    }
  }

  lemma OneMoreLayer(n: nat, b: nat)
    ensures (n + 1) * b == n * b + b
  {
  }

  lemma {:induction false} WaitingBelow<D>(t: Tree<D>, done: Progress, pending: nat, from: nat)
    requires DepthFirst(t, done, pending) && 1 <= from < pending
    ensures Waiting(t, done, from) == t.arity + Waiting(t, done, pending)
    decreases pending - from
  {
    if from + 1 < pending {
      WaitingBelow(t, done, pending, from + 1);
    }
  }

  /** The most buffers that a reduction ever needs at once. */
  function Peak<D>(t: Tree<D>): nat
    requires t.Ok()
  {
    if t.height == 0 then 1 else t.height * (t.arity - 1) + 2
  }

  /** A buffer for the next node is within the peak. */
  lemma NeverAbovePeak<D>(t: Tree<D>, done: Progress, pending: nat)
    requires DepthFirst(t, done, pending) && More(t, done, pending)
    ensures Waiting(t, done, 1) + 1 <= Peak(t)
  {
    hide DepthFirst, More, Waiting, Width, Gap;
    var l := Layer(pending);
    WaitingFrom(t, done, pending);
    PendingRange(t, done, pending);
    var h, b := t.height, t.arity - 1;
    if pending > 0 {
      WaitingBelow(t, done, pending, 1);
      MulGap(b, h + 1 - l, h - 1);
      assert (h + 1 - l) * b <= (h - 1) * b;
      assert h * b == (h - 1) * b + b;
    }
  }

  lemma PendingRange<D>(t: Tree<D>, done: Progress, pending: nat)
    requires DepthFirst(t, done, pending)
    ensures t.Ok() && (pending == 0 || 2 <= pending <= t.height + 1)
  {
  }

  lemma WaitingFrom<D>(t: Tree<D>, done: Progress, pending: nat)
    requires DepthFirst(t, done, pending) && More(t, done, pending)
    ensures Layer(pending) <= t.height + 1
    ensures Waiting(t, done, Layer(pending)) <= (t.height + 1 - Layer(pending)) * (t.arity - 1)
  {
    Room(t, done, pending);
    var l := Layer(pending);
    forall k | l <= k <= t.height + 1 ensures done[k] < Width(t, k) {
      Unfinished(t, done, pending, l, k);
    }
    WaitingAtMost(t, done, pending, l);
  }

  lemma OneShort(a: nat, w: nat, d: nat)
    requires w > 0 && 0 <= a * w - 1 - a * d < a
    ensures d == w - 1 && a * w - 1 - a * d == a - 1
  {
    MulGap(a, w, d);
    MulGap(a, w - 1, d);
    assert a * (w - 1) == a * w - a;
  }

  /** In the last subtree of layer 2 every layer above is short of one node exactly. */
  lemma {:induction false} LastSubtree<D>(t: Tree<D>, done: Progress, pending: nat, from: nat)
    requires DepthFirst(t, done, pending) && pending == 2 && 2 <= from <= t.height + 1
    requires done[from] == Width(t, from) - 1
    ensures Waiting(t, done, from) == (t.height + 1 - from) * (t.arity - 1)
    decreases t.height + 2 - from
  {
    if from == t.height + 1 {
      assert Width(t, from) == 1;
      assert Waiting(t, done, from + 1) == 0;
    } else {
      WidthNext(t, from);
      var w := Width(t, from + 1);
      assert 0 <= Gap(t, done, from) < t.arity;
      OneShort(t.arity, w, done[from + 1]);
      LastSubtree(t, done, pending, from + 1);
      OneMoreLayer(t.height - from, t.arity - 1);
    }
  }

  /** The peak is reached when the last node of layer 2 is hashed. */
  lemma ReachesPeak<D>(t: Tree<D>, done: Progress)
    requires DepthFirst(t, done, 2) && t.height >= 1 && done[2] == Width(t, 2) - 1
    ensures Waiting(t, done, 1) + 1 == Peak(t)
  {
    hide DepthFirst, Waiting, Width, Gap;
    WaitingBelow(t, done, 2, 1);
    LastSubtree(t, done, 2, 2);
    PendingRange(t, done, 2);
    OneMoreLayer(t.height - 1, t.arity - 1);
  }

  /** With no node left to take, every layer is finished and only the root waits. */
  lemma {:induction false} Finished<D>(t: Tree<D>, done: Progress, layer: nat)
    requires DepthFirst(t, done, 0) && !More(t, done, 0) && 1 <= layer <= t.height + 1
    ensures done[layer] == Width(t, layer)
  {
    if layer > 1 {
      Finished(t, done, layer - 1);
      WidthNext(t, layer - 1);
      var w := Width(t, layer);
      assert 0 <= Gap(t, done, layer - 1) < t.arity;
      MulGap(t.arity, w, done[layer]);
    }
  }

  /** A layer's ready parent index and slot: plain division lands on the next parent. */
  lemma NextParent<D>(t: Tree<D>, done: Progress, layer: nat)
    requires t.Ok() && layer + 1 < |done| && 0 <= done[layer] && 0 <= done[layer + 1]
    requires 0 <= Gap(t, done, layer) < t.arity
    ensures done[layer] / t.arity == done[layer + 1] && done[layer] % t.arity == Gap(t, done, layer)
  {
    EuclidUnique(done[layer], t.arity, done[layer + 1], Gap(t, done, layer));
  }
}