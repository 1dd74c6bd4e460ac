/** What the operations of each stage do to a stream's buffers, and that they read what they should. */
module Pc2Stages {
  import opened TreeRows
  import opened Pc2Tree
  import opened Pc2Planner
  import opened Pc2Pair
  import opened Pc2Blocks
  import opened Pc2Files
  import opened Pc2Writes
  import opened Pc2Streams

  lemma KeptHolds(contents: map<int, seq<int>>, b: int, d: seq<int>)
    ensures Holds(Kept(contents, b, d), b, d)
  {
  }

  lemma KeptElsewhere(contents: map<int, seq<int>>, b: int, d: seq<int>, other: int, e: seq<int>)
    requires Holds(contents, other, e) && other != b
    ensures Holds(Kept(contents, b, d), other, e)
  {
  }

  lemma HeldPrefix(contents: map<int, seq<int>>, b: int, d: seq<int>)
    requires Holds(contents, b, d)
    ensures Prefix(Mem(contents, b), |d|) == d
  {
  }

  function ChildNodes(c: Config, p: nat, kind: Kind, r: nat, id: NodeId): (d: seq<seq<int>>)
    requires c.u.Ok() && c.layers > 0 && id.layer > 1
    ensures |d| == c.u.arity
  {
    seq(c.u.arity, i requires 0 <= i < c.u.arity => Node(c, p, kind, r, Child(id.layer - 1, c.u.arity * id.node, i)))
  }

  lemma NodeIsHash(c: Config, p: nat, kind: Kind, r: nat, id: NodeId)
    requires c.u.Ok() && c.layers > 0 && id.layer > 1
    ensures Node(c, p, kind, r, id) == HashPtrs(c.u, c.f, ChildNodes(c, p, kind, r, id))
  {
    hide Merkle, HashPtrs, RunOf;
    var t := StreamTree(c.u, c.f, RunOf(c, p, kind, []).leaf(r));
    MerkleUp(t, id.layer, id.node);
    assert Below(t, id.layer, id.node) == ChildNodes(c, p, kind, r, id);
  }

  lemma NodeIsLeaf(c: Config, p: nat, r: nat, id: NodeId)
    requires c.u.Ok() && c.layers > 0 && id.layer == 1 && id.node >= 0
    ensures
      var start := StartNode(c, p, r, id.node);
      && Node(c, p, TreeC, r, id) == HashPacked(c.u, c.f, ColumnBlock(c.u, c.colHash, c.layers, Batch(c, start)))
      && Node(c, p, TreeR, r, id) == HashStrided(c.u, c.f, ReplicaOf(c, start))
  {
    hide HashPtrs, HashPacked, HashStrided, ColumnBlock, Batch, ReplicaOf, StartNode;
    MerkleUp(StreamTree(c.u, c.f, RunOf(c, p, TreeC, []).leaf(r)), 1, id.node);
    MerkleUp(StreamTree(c.u, c.f, RunOf(c, p, TreeR, []).leaf(r)), 1, id.node);
  }

  /** Every node's digest is a group of every sector. */
  lemma NodeSize(c: Config, p: nat, kind: Kind, r: nat, id: NodeId)
    requires c.u.Ok() && c.layers > 0 && id.layer > 0 && id.node >= 0
    ensures |Node(c, p, kind, r, id)| == c.GroupSize()
  {
    hide Node, HashPtrs, HashPacked, HashStrided, ColumnBlock;
    if id.layer > 1 {
      NodeIsHash(c, p, kind, r, id);
    } else {
      NodeIsLeaf(c, p, r, id);
    }
  }

  /** Hashing the inputs' buffers puts the node's digest into its own. */
  lemma HashedRight(c: Config, p: nat, kind: Kind, r: nat, w: WorkItem, contents: map<int, seq<int>>)
    requires c.u.Ok() && c.layers > 0 && !w.isLeaf && w.idx.layer > 1 && w.idx.node >= 0
    requires InputsHold(c, p, kind, r, w, contents)
    ensures HashPtrs(c.u, c.f, Mems(contents, w.inputs)) == Node(c, p, kind, r, w.idx)
  {
    hide HashPtrs, Node;
    NodeIsHash(c, p, kind, r, w.idx);
    var blocks, digests := Mems(contents, w.inputs), ChildNodes(c, p, kind, r, w.idx);
    forall i | 0 <= i < c.u.arity
      ensures |digests[i]| == c.GroupSize() <= |blocks[i]| && blocks[i][..c.GroupSize()] == digests[i]
    {
      var child := Child(w.idx.layer - 1, c.u.arity * w.idx.node, i);
      MulUpTo(c.u.arity, 0, w.idx.node);
      NodeSize(c, p, kind, r, child);
      assert Holds(contents, w.inputs[i], Node(c, p, kind, r, child));
    }
    HashPtrsReads(c.u, c.f, blocks, digests);
  }

  lemma InputsElsewhere(c: Config, p: nat, kind: Kind, r: nat, w: WorkItem, contents: map<int, seq<int>>, b: int,
                        d: seq<int>)
    requires c.u.Ok() && c.layers > 0 && InputsHold(c, p, kind, r, w, contents) && b !in Freed(w)
    ensures InputsHold(c, p, kind, r, w, Kept(contents, b, d))
  {
    hide Node, Holds, Kept;
    if !w.isLeaf {
      forall i | 0 <= i < c.u.arity
        ensures Holds(Kept(contents, b, d), w.inputs[i],
                      Node(c, p, kind, r, Child(w.idx.layer - 1, c.u.arity * w.idx.node, i)))
      {
        assert w.inputs[i] in Freed(w);
        KeptElsewhere(contents, b, d, w.inputs[i],
                      Node(c, p, kind, r, Child(w.idx.layer - 1, c.u.arity * w.idx.node, i)));
      }
    }
  }

  /** A buffer that holds no other node's digest can be overwritten. */
  lemma DigestsElsewhere(c: Config, p: nat, kind: Kind, r: nat, held: Held, contents: map<int, seq<int>>,
                         but: set<NodeId>, b: int, d: seq<int>)
    requires c.u.Ok() && c.layers > 0 && DigestsBut(c, p, kind, r, held, contents, but)
    requires forall id :: id in held && id !in but ==> held[id] != b
    ensures DigestsBut(c, p, kind, r, held, Kept(contents, b, d), but)
  {
    hide Node, Holds, Kept;
    forall id | id in held && id !in but ensures Holds(Kept(contents, b, d), held[id], Node(c, p, kind, r, id)) {
      KeptElsewhere(contents, b, d, held[id], Node(c, p, kind, r, id));
    }
  }

  /** The last missing digest. */
  lemma DigestIn(c: Config, p: nat, kind: Kind, r: nat, held: Held, contents: map<int, seq<int>>, id: NodeId)
    requires c.u.Ok() && c.layers > 0 && DigestsBut(c, p, kind, r, held, contents, {id})
    requires id in held && Holds(contents, held[id], Node(c, p, kind, r, id))
    ensures DigestsBut(c, p, kind, r, held, contents, {})
  {
    hide Node, Holds;
  }

  /** The items under way: their buffers are their own, and neither is still to be read by tree R. */
  ghost predicate Distinct(v: View, c: WorkItem, r: WorkItem) {
    && c.buf != r.buf && c.buf !in Freed(c) && c.buf !in Freed(r) && r.buf !in Freed(r)
    && c.idx == r.idx && c.isLeaf == r.isLeaf == (c.idx.layer == 1) && c.idx.layer > 0 && c.idx.node >= 0
    && c.idx in v.heldC && v.heldC[c.idx] == c.buf && r.idx in v.heldR && v.heldR[r.idx] == r.buf
    && (forall k :: k in v.heldC && k != c.idx ==> v.heldC[k] != c.buf && v.heldC[k] != r.buf)
    && (forall k :: k in v.heldR && k != c.idx ==> v.heldR[k] != c.buf && v.heldR[k] != r.buf)
  }

  /** Overwriting tree C's buffer leaves tree R's digests and inputs alone. */
  lemma FirstWrite(c: Config, p: nat, r: nat, v: View, wc: WorkItem, wr: WorkItem, contents: map<int, seq<int>>,
                   d: seq<int>)
    requires c.u.Ok() && c.layers > 0 && Distinct(v, wc, wr) && BothBut(c, p, r, v, contents, {wc.idx})
    requires InputsHold(c, p, TreeR, r, wr, contents)
    ensures BothBut(c, p, r, v, Kept(contents, wc.buf, d), {wc.idx})
    ensures InputsHold(c, p, TreeR, r, wr, Kept(contents, wc.buf, d))
  {
    hide DigestsBut, InputsHold, Kept;
    InputsElsewhere(c, p, TreeR, r, wr, contents, wc.buf, d);
    if !c.treeROnly {
      DigestsElsewhere(c, p, TreeC, r, v.heldC, contents, {wc.idx}, wc.buf, d);
    }
    DigestsElsewhere(c, p, TreeR, r, v.heldR, contents, {wc.idx}, wc.buf, d);
  }

  /** With tree C's digest in its buffer, writing tree R's completes both. */
  lemma SecondWrite(c: Config, p: nat, r: nat, v: View, wc: WorkItem, wr: WorkItem, contents: map<int, seq<int>>,
                    d: seq<int>)
    requires c.u.Ok() && c.layers > 0 && Distinct(v, wc, wr) && BothBut(c, p, r, v, contents, {wc.idx})
    requires !c.treeROnly ==> Holds(contents, wc.buf, Node(c, p, TreeC, r, wc.idx))
    requires d == Node(c, p, TreeR, r, wr.idx)
    ensures BothBut(c, p, r, v, Kept(contents, wr.buf, d), {})
    ensures !c.treeROnly ==> Holds(Kept(contents, wr.buf, d), wc.buf, Node(c, p, TreeC, r, wc.idx))
    ensures Holds(Kept(contents, wr.buf, d), wr.buf, d)
  {
    hide DigestsBut, InputsHold, Kept, Node, Holds;
    KeptHolds(contents, wr.buf, d);
    DigestsElsewhere(c, p, TreeR, r, v.heldR, contents, {wc.idx}, wr.buf, d);
    DigestIn(c, p, TreeR, r, v.heldR, Kept(contents, wr.buf, d), wr.idx);
    if !c.treeROnly {
      DigestsElsewhere(c, p, TreeC, r, v.heldC, contents, {wc.idx}, wr.buf, d);
      KeptElsewhere(contents, wr.buf, d, wc.buf, Node(c, p, TreeC, r, wc.idx));
      DigestIn(c, p, TreeC, r, v.heldC, Kept(contents, wr.buf, d), wc.idx);
    }
  }
}
