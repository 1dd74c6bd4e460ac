/** A reader of C1's whole output. It is told which proofs were asked for; how many partitions there are and
  * how many challenges each of them has it takes from the bytes.
  */
module C1Output {
  import opened LabelOrder
  import opened C1Proofs
  import opened C1Readers
  import opened C1Files

  /** What stands in an output for one challenge: trees D and R, a node proof, or both. */
  datatype Proofs = Proofs(trees: seq<TreeProof>, node: seq<NodeProof>)

  datatype Output = Output(partitions: seq<seq<Proofs>>, trailer: seq<int>)

  /** The tree proofs D and R, of these types. */
  function ReadTrees(s: seq<int>, config: nat): Parsed<seq<TreeProof>> {
    match ReadTree(s)
    case Bad => Bad
    case Good(d, s1) =>
      match ReadTree(s1)
      case Bad => Bad
      case Good(r, s2) => if d.0 != 0 || r.0 != config then Bad else Good([d.1, r.1], s2)
  }

  /** With nodes, trees are there if they were asked for; without, they always are. */
  function ReadProofs(s: seq<int>, config: nat, doTree: bool, doNode: bool): Parsed<Proofs> {
    if !doNode then
      match ReadTrees(s, config) { case Bad => Bad case Good(trees, s1) => Good(Proofs(trees, []), s1) }
    else
      match (if doTree then ReadTrees(s, config) else Good([], s))
      case Bad => Bad
      case Good(trees, s1) =>
        match ReadNode(s1, config) { case Bad => Bad case Good(node, s2) => Good(Proofs(trees, [node]), s2) }
  }

  function ReadChallenges(s: seq<int>, n: nat, config: nat, doTree: bool, doNode: bool): Parsed<seq<Proofs>> {
    if n == 0 then Good([], s)
    else match ReadChallenges(s, n - 1, config, doTree, doNode)
      case Bad => Bad
      case Good(all, s1) =>
        match ReadProofs(s1, config, doTree, doNode) { case Bad => Bad case Good(one, s2) => Good(all + [one], s2) }
  }

  function ReadPartition(s: seq<int>, config: nat, doTree: bool, doNode: bool): Parsed<seq<Proofs>> {
    match ReadInt(s, 8)
    case Bad => Bad
    case Good(n, s1) => if n < 0 then Bad else ReadChallenges(s1, n, config, doTree, doNode)
  }

  function ReadPartitions(s: seq<int>, n: nat, config: nat, doTree: bool, doNode: bool): Parsed<seq<seq<Proofs>>> {
    if n == 0 then Good([], s)
    else match ReadPartitions(s, n - 1, config, doTree, doNode)
      case Bad => Bad
      case Good(all, s1) =>
        match ReadPartition(s1, config, doTree, doNode) { case Bad => Bad case Good(one, s2) => Good(all + [one], s2) }
  }

  function ReadOutput(s: seq<int>, config: nat, doTree: bool, doNode: bool): Parsed<Output> {
    match ReadInt(s, 8)
    case Bad => Bad
    case Good(n, s1) =>
      if n < 0 then Bad else
      match ReadPartitions(s1, n, config, doTree, doNode)
      case Bad => Bad
      case Good(partitions, s2) =>
        match ReadDigests(s2, (if doTree then 2 else 0) + (if doNode then 3 else 0))
        case Bad => Bad
        case Good(trailer, s3) => Good(Output(partitions, trailer), s3)
  }

  /** All values of an output fit into the fields they are written to. */
  ghost predicate Values(w: Job) {
    && Fit(w.p.partitions, 8) && Fit(w.p.challenges, 8)
    && DigestsFit([w.trailer.commR, w.trailer.commD, w.trailer.replicaId, w.trailer.seed, w.trailer.ticket])
    && forall n: int :: ProofValues(w, w.challenge(n))
  }

  ghost predicate ProofValues(w: Job, c: Challenge) {
    TreeValues(2, c.treeD) && TreeValues(w.p.arity, c.treeR) && ChallengeValues(w.p, c)
  }

  /** These are the proofs of a challenge. */
  ghost predicate ProofsOf(w: Job, c: Challenge, proofs: Proofs)
    requires Fits(w.p, c)
  {
    && proofs.trees == (if w.doTree || !w.doNode then [c.treeD, c.treeR] else [])
    && if w.doNode then
         proofs.node == [NodeProof(c.own, c.drg, c.exp, LayerProofs(c.labels, PARENTS + 1, c.node, w.p.layers),
                                   LayerProof(LabelList(c.labels, PARENTS + 1, w.p.layers), w.p.layers, c.node))]
       else proofs.node == []
  }

  lemma TreesBack(w: Job, c: Challenge, rest: seq<int>)
    requires Fits(w.p, c) && ProofValues(w, c)
    ensures ReadTrees(TreePart(w.p, c) + rest, w.p.config) == Good([c.treeD, c.treeR], rest)
  {
    hide TreeBytes, ReadTree, TreeValues, ChallengeValues;
    var r := TreeBytes(w.p.arity, c.treeR, w.p.config) + rest;
    assert TreePart(w.p, c) + rest == TreeBytes(2, c.treeD, SINGLE_PROOF) + r;
    TreeBack(2, c.treeD, SINGLE_PROOF, r);
    TreeBack(w.p.arity, c.treeR, w.p.config, rest);
  }

  lemma ProofsBack(w: Job, n: int, rest: seq<int>)
    requires Ready(w) && ProofValues(w, w.challenge(n))
    ensures
      var r := ReadProofs(Part(w, n) + rest, w.p.config, w.doTree, w.doNode);
      r.Good? && r.rest == rest && ProofsOf(w, w.challenge(n), r.value)
  {
    hide TreePart, NodePart, ReadTrees, ReadNode, LabelList, LayerProofs, TreeValues, ChallengeValues, ColumnFits,
      TreeFits;
    var c := w.challenge(n);
    assert Fits(w.p, c);
    if w.doNode {
      NodeBack(w.p, c, rest);
      assert TreePart(w.p, c) + NodePart(w.p, c) + rest == TreePart(w.p, c) + (NodePart(w.p, c) + rest);
      assert [] + NodePart(w.p, c) == NodePart(w.p, c);
      if w.doTree { TreesBack(w, c, NodePart(w.p, c) + rest); }
    } else {
      TreesBack(w, c, rest);
    }
  }

  /** The first challenges of a partition are read back, and the bytes of the others are left. */
  lemma {:induction false} ChallengesBack(w: Job, i: nat, j: nat)
    requires Ready(w) && Values(w) && i < w.p.partitions && j <= w.p.challenges
    ensures
      var r := ReadChallenges(FromChallenge(w, i, 0), j, w.p.config, w.doTree, w.doNode);
      && r.Good? && r.rest == FromChallenge(w, i, j) && |r.value| == j
      && forall t :: 0 <= t < j ==> ProofsOf(w, w.challenge(t + i * w.p.challenges), r.value[t])
  {
    hide Part, ReadProofs, ProofsOf, ProofValues, Fits, Fit, DigestsFit, Le;
    if j > 0 {
      ChallengesBack(w, i, j - 1);
      ProofsBack(w, Index(w, i, j - 1), FromChallenge(w, i, j));
    }
  }

  /** The challenges of partition i. */
  ghost predicate PartitionOk(w: Job, i: int, partition: seq<Proofs>)
    requires Ready(w)
  {
    && |partition| == w.p.challenges
    && forall j :: 0 <= j < w.p.challenges ==> ProofsOf(w, w.challenge(j + i * w.p.challenges), partition[j])
  }

  lemma {:induction false} PartitionsBack(w: Job, i: nat)
    requires Ready(w) && Values(w) && i <= w.p.partitions
    ensures
      var r := ReadPartitions(FromPartition(w, 0), i, w.p.config, w.doTree, w.doNode);
      && r.Good? && r.rest == FromPartition(w, i) && |r.value| == i
      && forall t :: 0 <= t < i ==> PartitionOk(w, t, r.value[t])
  {
    hide Part, ReadProofs, ProofsOf, ProofValues, Fits, Fit, DigestsFit, Le, ReadInt, ReadChallenges;
    if i > 0 {
      PartitionsBack(w, i - 1);
      IntBack(w.p.challenges, 8, FromChallenge(w, i - 1, 0));
      ChallengesBack(w, i - 1, w.p.challenges);
    }
  }

  lemma TrailerBack(w: Job)
    requires Values(w)
    ensures
      ReadDigests(Tail(w), (if w.doTree then 2 else 0) + (if w.doNode then 3 else 0))
      == Good((if w.doTree then [w.trailer.commR, w.trailer.commD] else [])
              + (if w.doNode then [w.trailer.replicaId, w.trailer.seed, w.trailer.ticket] else []), [])
  {
    hide Fit, ReadInt, ProofValues, Le, ReadDigests;
    var t := w.trailer;
    var all := [t.commR, t.commD, t.replicaId, t.seed, t.ticket];
    var xs := (if w.doTree then [t.commR, t.commD] else [])
      + (if w.doNode then [t.replicaId, t.seed, t.ticket] else []);
    assert Fit(all[0], 32) && Fit(all[1], 32) && Fit(all[2], 32) && Fit(all[3], 32) && Fit(all[4], 32);
    PairBytes(t.commR, t.commD);
    TripleBytes(t.replicaId, t.seed, t.ticket);
    assert Digests([]) == [];
    DigestsJoin(if w.doTree then [t.commR, t.commD] else [],
                if w.doNode then [t.replicaId, t.seed, t.ticket] else []);
    assert Digests(xs) == Tail(w);
    DigestsBack(xs, []);
    assert Digests(xs) + [] == Digests(xs);
  }

  lemma PairBytes(a: int, b: int)
    ensures Digests([a, b]) == Digest(a) + Digest(b)
  {
    hide Le;
    assert [a, b][..1] == [a] && [a][..0] == [];
  }

  lemma TripleBytes(a: int, b: int, c: int)
    ensures Digests([a, b, c]) == Digest(a) + Digest(b) + Digest(c)
  {
    hide Le;
    PairBytes(a, b);
    assert [a, b, c][..2] == [a, b];
  }

  lemma {:induction false} DigestsJoin(xs: seq<int>, ys: seq<int>)
    ensures Digests(xs + ys) == Digests(xs) + Digests(ys)
  {
    hide Le;
    if ys == [] {
      assert xs + ys == xs;
    } else {
      var n := |ys| - 1;
      DigestsJoin(xs, ys[..n]);
      assert (xs + ys)[..|xs| + n] == xs + ys[..n];
    }
  }

  /** Main result: from an output's bytes every partition is read back with the proofs of its own challenges
    * in order, those of partition i being number i * challenges and following, and then the trailer.
    */
  lemma OutputBack(w: Job)
    requires Ready(w) && Values(w)
    ensures
      var r := ReadOutput(FileBytes(w), w.p.config, w.doTree, w.doNode);
      && r.Good? && r.rest == [] && |r.value.partitions| == w.p.partitions
      && (forall i :: 0 <= i < w.p.partitions ==> |r.value.partitions[i]| == w.p.challenges)
      && (forall i, j :: 0 <= i < w.p.partitions && 0 <= j < w.p.challenges ==>
           ProofsOf(w, w.challenge(j + i * w.p.challenges), r.value.partitions[i][j]))
      && r.value.trailer == (if w.doTree then [w.trailer.commR, w.trailer.commD] else [])
                            + (if w.doNode then [w.trailer.replicaId, w.trailer.seed, w.trailer.ticket] else [])
  {
    hide Part, ProofsOf, ProofValues, Fits, Fit, DigestsFit, Le, ReadInt, ReadPartitions, ReadDigests, Tail;
    IntBack(w.p.partitions, 8, FromPartition(w, 0));
    PartitionsBack(w, w.p.partitions);
    TrailerBack(w);
    var r := ReadPartitions(FromPartition(w, 0), w.p.partitions, w.p.config, w.doTree, w.doNode);
    forall i | 0 <= i < w.p.partitions ensures PartitionOk(w, i, r.value[i]) {
    }
  }
}
