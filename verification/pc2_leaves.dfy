/** The stages that finish an item: a leaf's hash over its columns and replica, an inner node's over its children. */
module Pc2Leaves {
  import opened RingMath
  import opened TreeRows
  import opened Pc2Tree
  import opened Pc2Planner
  import opened Pc2Pair
  import opened Pc2Blocks
  import opened Pc2Places
  import opened Pc2Writes
  import opened Pc2Streams
  import opened Pc2Stages
  import opened Pc2Plans
  import opened Pc2Polls
  import opened Pc2Steps

  /** The device's column buffer for tree R's leaves. */
  function Patches(c: Config, s: Stream): seq<int>
    requires c.layers > 0
  {
    if c.anyData || c.treeROnly then Patched(c, s.columnD, s.replica) else s.columnD
  }

  lemma OneLayer(layers: nat, size: nat)
    requires layers > 0
    ensures 0 <= (layers - 1) * size && layers * size == (layers - 1) * size + size
  {
    MulUpTo(size, 0, layers - 1);
    assert size * (layers - 1) == (layers - 1) * size;
  }

  /** Without data to encode, the replica is the last layer itself. */
  lemma PlainReplica(c: Config, start: nat)
    requires c.Ok() && !c.anyData && !c.treeROnly
    ensures Tail(c, Batch(c, start)) == ReplicaOf(c, start)
  {
    hide Prefix, Slot, Div, Batch, PlacesOk;
    OneLayer(c.layers, c.LayerSize());
    BatchSize(c, start);
    assert |Tail(c, Batch(c, start))| == c.LayerSize();
    assert LastLayer(c, Batch(c, start)) == Tail(c, Batch(c, start));
    Unchanged(c, Tail(c, Batch(c, start)), start);
  }

  lemma Unchanged(c: Config, layer: seq<int>, start: nat)
    requires c.u.sectors > 0 && |layer| == c.LayerSize() && forall s: nat :: s < c.u.sectors ==> !c.hasData(s)
    ensures Replica(c, layer, start) == layer
  {
    hide Slot, Div;
  }

  /** Whether it was patched in or came with the columns, the replica is what tree R's leaves are hashed from. */
  lemma ReplicaIn(c: Config, p: nat, r: nat, s: Stream)
    requires c.Ok() && |s.columnD| == c.layers * c.LayerSize() && s.replica == ReplicaOf(c, s.start)
    requires !c.treeROnly ==> s.columnD == Batch(c, s.start)
    ensures Tail(c, Patches(c, s)) == ReplicaOf(c, s.start)
    ensures |Patches(c, s)| == c.layers * c.LayerSize()
  {
    hide Batch, PlacesOk;
    if c.anyData || c.treeROnly {
      hide ReplicaOf;
      ReplicaSize(c, s.start);
      OneLayer(c.layers, c.LayerSize());
      var off := (c.layers - 1) * c.LayerSize();
      assert Patches(c, s) == s.columnD[..off] + s.replica;
    } else {
      PlainReplica(c, s.start);
    }
  }

  lemma ReplicaSize(c: Config, start: nat)
    requires c.u.sectors > 0 && c.layers > 0
    ensures |ReplicaOf(c, start)| == c.LayerSize()
  {
  }

  lemma LeafBuffers(c: Config, p: nat, r: nat, s: Stream, e: Stream, v: View, job: Job, pos: int)
    requires c.Ok() && Flying(c, p, r, s, v) && s.workC.isLeaf && s.workC.idx.node >= 0 && AtStart(c, p, r, s)
    requires !c.treeROnly ==> ColumnsIn(c, p, r, s, v)
    requires Tail(c, Patches(c, s)) == ReplicaOf(c, s.start)
    requires e == LeafEnd(c, p, s, s.workC, s.workR, job, pos)
    ensures BothBut(c, p, r, v, e.contents, {})
    ensures !c.treeROnly ==> e.diskC == Node(c, p, TreeC, r, s.workC.idx)
  {
    hide BothBut, Distinct, Groups, ColumnBlock, StartNode, Kept, Prefix, Node, Tail, HashPacked, HashStrided;
    hide ReplicaOf, Patched, InputsHold;
    var id, wc, wr := s.workC.idx, s.workC, s.workR;
    assert id.layer == 1 && wr.idx == id by { FlyingNode(c, p, r, s, v); }
    NodeIsLeaf(c, p, r, id);
    var dr := HashStrided(c.u, c.f, Tail(c, Patches(c, s)));
    if c.treeROnly {
      SecondWrite(c, p, r, v, wc, wr, s.contents, dr);
    } else {
      var dc := HashPacked(c.u, c.f, Mem(s.contents, wc.buf));
      HashPackedReads(c.u, c.f, Mem(s.contents, wc.buf), ColumnBlock(c.u, c.colHash, c.layers, Batch(c, s.start)));
      FirstWrite(c, p, r, v, wc, wr, s.contents, dc);
      KeptHolds(s.contents, wc.buf, dc);
      SecondWrite(c, p, r, v, wc, wr, Kept(s.contents, wc.buf, dc), dr);
      NodeSize(c, p, TreeC, r, id);
      HeldPrefix(e.contents, wc.buf, dc);
    }
  }

  /** A group's write is the one that is wanted. */
  lemma PartWanted(c: Config, p: nat, kind: Kind, r: nat, id: NodeId)
    requires c.Ok() && r < c.u.streams && 1 <= id.layer <= c.u.height + 1 && 0 <= id.node < Groups(c.u, id.layer)
    requires kind == TreeR ==> id.layer > 1 && id.layer > c.discards
    ensures
      var job := Part(r, id.layer, id.node);
      && Valid(c.u, c.PlacesOf(kind).skip, job) && PlacesHave(c.u, c.PlacesOf(kind), job)
      && TheWrite(c, p, kind, job)
         == Write(p, kind, job, Pos(c.u, c.PlacesOf(kind), job), Node(c, p, kind, r, id))
  {
    hide Pos, Groups, Merkle, RunOf;
    PlaceThere(c, kind, Part(r, id.layer, id.node));
  }

  lemma ExpectedNext(c: Config, p: nat, r: nat, v: View)
    requires c.u.Ok() && c.layers > 0 && v.trace != [] && v.trace[|v.trace| - 1].node >= 0
    ensures Expected(c, p, r, v.trace) == Before(c, p, r, v) + WritesOf(c, p, r, v.trace[|v.trace| - 1])
  {
  }

  lemma LeafSent(c: Config, p: nat, s: Stream, wc: WorkItem, wr: WorkItem, job: Job, pos: int)
    requires c.u.Ok() && c.layers > 0
    ensures
      var e := LeafEnd(c, p, s, wc, wr, job, pos);
      && e.sent == s.sent + (if c.treeROnly then [] else [Write(p, TreeC, job, pos, e.diskC)])
      && e.state == s.state && e.last == s.last && e.columnD == Patches(c, s) && e.stashC == s.stashC
      && e.stashR == s.stashR
  {
    hide Prefix, Kept, Patched, HashPacked, HashStrided, Tail, Mem;
  }

  lemma LeafEndOk(c: Config, p: nat, r: nat, s: Stream, e: Stream, v: View, job: Job)
    requires c.Ok() && s.state == HashColumnLeaves && InState(c, p, r, s, v) && r < c.u.streams
    requires |s.columnD| == c.layers * c.LayerSize() && PlacesHave(c.u, c.c, job)
    requires s.workC.idx.node >= 0 ==> job == Part(r, 1, s.workC.idx.node)
    requires e == LeafEnd(c, p, s, s.workC, s.workR, job, Pos(c.u, c.c, job)).(state := HashWait)
    ensures InState(c, p, r, e, v) && |e.columnD| == c.layers * c.LayerSize()
  {
    hide Flying, Pos, StartNode, Batch, ColumnBlock, Holds, Before, PlacesHave, PlacesOk, TheWrite, LeafEnd, ReplicaOf;
    hide BothBut, Expected, Tail, Patches, Node;
    FlyingNode(c, p, r, s, v);
    var id, pos := s.workC.idx, Pos(c.u, c.c, job);
    var e' := LeafEnd(c, p, s, s.workC, s.workR, job, pos);
    ReplicaIn(c, p, r, s);
    LeafBuffers(c, p, r, s, e', v, job, pos);
    LeafSent(c, p, s, s.workC, s.workR, job, pos);
    assert v.trace[|v.trace| - 1] == id by { FlyingTrace(c, p, r, s, v); }
    ExpectedNext(c, p, r, v);
    PartWanted(c, p, TreeC, r, id);
  }

  lemma FlyingTrace(c: Config, p: nat, r: nat, s: Stream, v: View)
    requires c.u.Ok() && c.layers > 0 && Flying(c, p, r, s, v)
    ensures v.trace != [] && v.trace[|v.trace| - 1] == s.workC.idx
  {
  }

  lemma LeafShape(c: Config, r: nat, wc: WorkItem, wr: WorkItem, job: Job, pos: int)
    requires !job.Top? && job.stream == r
    ensures
      var q := LeafPlan(c, wc, wr, job, pos);
      WakesLast(q) && Guarded(q) && (forall op :: op in q ==> Mine(r, op)) && Unlock !in q && |q| <= 10
  {
    hide WakesLast, Guarded, Then;
    WakeShape(r);
    var full, patch := !c.treeROnly, c.anyData || c.treeROnly;
    var o5 := Then(full, SendC(job, pos), [Wake]);
    ThenShape(r, full, SendC(job, pos), [Wake]);
    var o4 := Then(full, CopyC(wc.buf), o5);
    ThenShape(r, full, CopyC(wc.buf), o5);
    var o3 := Then(true, LeavesR(wr.buf), o4);
    ThenShape(r, true, LeavesR(wr.buf), o4);
    ThenShape(r, patch, Patch, o3);
    ThenShape(r, full, LeavesC(wc.buf), Then(patch, Patch, o3));
  }

  lemma LeafState(c: Config, p: nat, s: Stream, job: Job, pos: int, s': Stream)
    requires c.u.Ok() && c.layers > 0 && s' == s.(state := s'.state, awake := s'.awake)
    ensures LeafEnd(c, p, s', s'.workC, s'.workR, job, pos)
            == LeafEnd(c, p, s, s.workC, s.workR, job, pos).(state := s'.state)
  {
    hide Prefix, Kept, Patched, HashPacked, HashStrided, Tail, Mem;
  }

  /** What the leaf stage reads is there. */
  lemma LeafReads(c: Config, p: nat, r: nat, s: Stream, v: View)
    requires c.Ok() && s.state == HashColumnLeaves && InState(c, p, r, s, v) && |s.columnD| == c.layers * c.LayerSize()
    ensures !c.treeROnly ==> Reads(c, p, r, s, LeavesC(s.workC.buf))
    ensures s.workR.idx.node >= 0 && s.workC.idx.node == s.workR.idx.node
    ensures Tail(c, Patches(c, s)) == ReplicaOf(c, StartNode(c, p, r, s.workR.idx.node))
  {
    hide Flying, StartNode, Batch, ColumnBlock, Holds, Before, TheWrite, ReplicaOf, Tail, Patches;
    FlyingNode(c, p, r, s, v);
    ReplicaIn(c, p, r, s);
  }

  /** The leaf stage is asked for. */
  lemma LeafStage(c: Config, p: nat, r: nat, s: Stream, s': Stream, v: View, lost: nat, job: Job)
    requires StreamOk(c, p, r, s, v, lost) && s.state == HashColumnLeaves && s.awake && r < c.u.streams
    requires s.workC.idx.node >= 0 ==> job == Part(r, 1, s.workC.idx.node)
    requires PlacesHave(c.u, c.c, job)
    requires s' == s.(state := HashWait, awake := false,
                      queue := LeafPlan(c, s.workC, s.workR, job, Pos(c.u, c.c, job)))
    ensures StreamOk(c, p, r, s', v, lost)
  {
    hide PairOk, Pos, RunOps, Safe, LeafPlan, WakesLast, Guarded, PlacesHave, PlacesOk, LeafEnd, Mine, InState;
    hide Tail, ReplicaOf, StartNode, Batch, Holds, Patched, ColumnBlock;
    Quiet(c, p, r, s, v, lost);
    LeafReads(c, p, r, s, v);
    var pos := Pos(c.u, c.c, job);
    var plan := LeafPlan(c, s.workC, s.workR, job, pos);
    var host := s'.(queue := []);
    LeafRuns(c, p, r, host, s.workC, s.workR, job, pos);
    LeafState(c, p, s, job, pos, host);
    var e := LeafEnd(c, p, host, s.workC, s.workR, job, pos);
    LeafEndOk(c, p, r, s, e, v, job);
    LeafShape(c, r, s.workC, s.workR, job, pos);
    Asked(c, p, r, s, s', plan, e, v, lost);
  }
}
