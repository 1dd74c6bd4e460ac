/** C1's proof files: what each writer appends, how long it is, and combining two halves of a proof. */
module C1Proofs {
  import opened RingMath
  import TreePath
  import opened LabelOrder

  /** Little-endian bytes; a digest has 32 of them, a u64 eight and a u32 four. */
  function Le(x: int, n: nat): (r: seq<int>)
    ensures |r| == n
    decreases n
  {
    if n == 0 then [] else [x % 256] + Le(x / 256, n - 1)
  }

  function Digest(x: int): (r: seq<int>) ensures |r| == 32 { Le(x, 32) }

  function U64(x: int): (r: seq<int>) ensures |r| == 8 { Le(x, 8) }

  function U32(x: int): (r: seq<int>) ensures |r| == 4 { Le(x, 4) }

  function Digests(xs: seq<int>): (r: seq<int>)
    ensures |r| == 32 * |xs|
  {
    if xs == [] then [] else Digests(xs[..|xs| - 1]) + Digest(xs[|xs| - 1])
  }

  type Element = TreePath.PathElement

  function ElementBytes(arity: nat, e: Element): seq<int> { U64(arity - 1) + Digests(e.hashes) + U64(e.index) }

  function PathBytes(arity: nat, path: seq<Element>): seq<int> {
    if path == [] then [] else PathBytes(arity, path[..|path| - 1]) + ElementBytes(arity, path[|path| - 1])
  }

  ghost predicate Full(arity: nat, path: seq<Element>) {
    arity > 0 && forall i :: 0 <= i < |path| ==> |path[i].hashes| == arity - 1
  }

  lemma {:induction false} PathSize(arity: nat, path: seq<Element>)
    requires Full(arity, path)
    ensures |PathBytes(arity, path)| == (32 * (arity - 1) + 16) * |path|
  {
    if path != [] {
      PathSize(arity, path[..|path| - 1]);
      var each, n := 32 * (arity - 1) + 16, |path| - 1;
      assert each * (n + 1) == each * n + each;
    }
  }

  /** PathElement::Write. Each writer returns what it puts where the one before stopped. */
  method WriteElement(arity: nat, e: Element) returns (out: seq<int>)
    requires arity > 0 && |e.hashes| == arity - 1
    ensures out == ElementBytes(arity, e)
  {
    hide Le;
    out := U64(arity - 1);
    for i := 0 to |e.hashes|
      invariant out == U64(arity - 1) + Digests(e.hashes[..i])
    {
      assert e.hashes[..i + 1][..i] == e.hashes[..i];
      out := out + Digest(e.hashes[i]);
    }
    assert e.hashes[..|e.hashes|] == e.hashes;
    out := out + U64(e.index);
  }

  method WritePath(arity: nat, path: seq<Element>) returns (out: seq<int>)
    requires Full(arity, path)
    ensures out == PathBytes(arity, path)
  {
    hide Le;
    out := [];
    for i := 0 to |path|
      invariant out == PathBytes(arity, path[..i])
    {
      assert path[..i + 1][..i] == path[..i];
      var element := WriteElement(arity, path[i]);
      out := out + element;
    }
    assert path[..|path|] == path;
  }

  const SINGLE_PROOF := 0
  const SUB_PROOF := 1

  datatype TreeProof = TreeProof(root: int, leaf: int, path: seq<Element>)

  /** What TreeProof::WriteProof appends; for other types than 0 and 1 just the type. */
  function TreeBytes(arity: nat, p: TreeProof, proofType: nat): seq<int> {
    if proofType == SINGLE_PROOF then
      U32(proofType) + Digest(p.root) + Digest(p.leaf) + U64(|p.path|) + PathBytes(arity, p.path)
    else if proofType == SUB_PROOF && p.path != [] then
      var base := |p.path| - 1;
      U32(proofType) + U64(base) + PathBytes(arity, p.path[..base]) + U64(1) + PathBytes(arity, p.path[base..])
        + Digest(p.root) + Digest(p.leaf)
    else U32(proofType)
  }

  method WriteTree(arity: nat, p: TreeProof, proofType: nat) returns (out: seq<int>)
    requires Full(arity, p.path) && p.path != []
    ensures out == TreeBytes(arity, p, proofType)
  {
    hide Le, PathBytes;
    out := U32(proofType);
    if proofType == SINGLE_PROOF {
      var path := WritePath(arity, p.path);
      out := out + Digest(p.root) + Digest(p.leaf) + U64(|p.path|) + path;
    } else if proofType == SUB_PROOF {
      var base := |p.path| - 1;
      var basePath := WritePath(arity, p.path[..base]);
      var subPath := WritePath(arity, p.path[base..]);
      out := out + U64(base) + basePath + U64(1) + subPath + Digest(p.root) + Digest(p.leaf);
    }
  }

  /** TreeProof::ProofSize */
  function TreeSize(arity: nat, levels: nat, proofType: nat): int {
    4 + 32 + 32 + 8 + (32 * (arity - 1) + 8 + 8) * levels + (if proofType == SUB_PROOF then 8 else 0)
  }

  /** The declared size is what is written for the types 0 and 1, and for no other. */
  lemma TreeSizeRight(arity: nat, p: TreeProof, proofType: nat)
    requires Full(arity, p.path) && p.path != []
    ensures |TreeBytes(arity, p, proofType)| == TreeSize(arity, |p.path|, proofType) <==> proofType <= 1
  {
    hide Le, PathBytes;
    var n, each := |p.path|, 32 * (arity - 1) + 16;
    PathSize(arity, p.path);
    if proofType == SUB_PROOF {
      PathSize(arity, p.path[..n - 1]);
      PathSize(arity, p.path[n - 1..]);
      assert each * n == each * (n - 1) + each * 1;
    }
    MulNat(each, n);
  }

  /** One layer of a label proof: the 37 labels, the layer and the node. */
  function LayerBytes(labels: seq<int>, inc: nat, challenge: nat, l: nat): (r: seq<int>)
    requires l >= 1 && inc == PARENTS + 1 && |labels| >= l * inc
    ensures |r| == 1204
  {
    U64(LABEL_PARENTS) + Digests(LabelList(labels, inc, l)) + U32(l) + U64(challenge)
  }

  function LayersBytes(labels: seq<int>, inc: nat, challenge: nat, from: nat, l: nat): (r: seq<int>)
    requires from >= 1 && inc == PARENTS + 1 && |labels| >= l * inc
    decreases l
  {
    if l < from then [] else LayersBytes(labels, inc, challenge, from, l - 1) + LayerBytes(labels, inc, challenge, l)
  }

  lemma {:induction false} LayersSize(labels: seq<int>, inc: nat, challenge: nat, from: nat, l: nat)
    requires from >= 1 && inc == PARENTS + 1 && |labels| >= l * inc
    ensures |LayersBytes(labels, inc, challenge, from, l)| == if l < from then 0 else (l - from + 1) * 1204
    decreases l
  {
    hide LayerBytes;
    if from <= l { LayersSize(labels, inc, challenge, from, l - 1); }
  }

  function LabelBytes(labels: seq<int>, inc: nat, challenge: nat, layers: nat, enc: bool): seq<int>
    requires layers >= 1 && inc == PARENTS + 1 && |labels| >= layers * inc
  {
    if enc then LayersBytes(labels, inc, challenge, layers, layers)
    else U64(layers) + LayersBytes(labels, inc, challenge, 1, layers)
  }

  /** LabelProof::WriteProof: all layers, or the last one for the encoding. */
  method WriteLabelProof(labels: seq<int>, inc: nat, challenge: nat, layers: nat, enc: bool) returns (out: seq<int>)
    requires layers >= 1 && inc == PARENTS + 1 && |labels| >= layers * inc
    ensures out == LabelBytes(labels, inc, challenge, layers, enc)
  {
    hide Le, LabelList, Digests;
    out := [];
    var l := 1;
    if enc {
      l := layers;
    } else {
      out := U64(layers);
    }
    ghost var from, before := l, out;
    while l <= layers
      invariant from <= l <= layers + 1 && out == before + LayersBytes(labels, inc, challenge, from, l - 1)
    {
      var list := WriteLabels(labels, inc, l);
      var layer := U64(LABEL_PARENTS) + Digests(list) + U32(l) + U64(challenge);
      out := out + layer;
      assert out == before + (LayersBytes(labels, inc, challenge, from, l - 1) + layer);
      l := l + 1;
    }
  }

  /** LabelProof::ProofSize, branch by branch. */
  function LabelSize(layers: nat, enc: bool): int {
    var one := !enc || layers == 1;
    var first := (if !enc then layers * 8 else 0) + 32 * LAYER_ONE_REPEAT_SEQ * BASE + 32 * LAYER_ONE_FINAL_SEQ + 4 + 8;
    var rest := if one then layers - 1 else layers;
    var n := if enc && rest > 1 then 1 else rest;
    8 + (if one then first else 0)
      + (n * 32 * LAYER_N_REPEAT_SEQ * BASE + n * 32 * LAYER_N_REPEAT_SEQ * EXP
         + n * 32 * LAYER_N_FINAL_SEQ + n * 4 + n * 8)
  }

  lemma LabelSizeRight(labels: seq<int>, inc: nat, challenge: nat, layers: nat, enc: bool)
    requires layers >= 1 && inc == PARENTS + 1 && |labels| >= layers * inc
    ensures |LabelBytes(labels, inc, challenge, layers, enc)| == LabelSize(layers, enc)
  {
    hide Le, LayerBytes;
    LayersSize(labels, inc, challenge, if enc then layers else 1, layers);
  }

  datatype Column = Column(node: nat, labels: seq<int>, tree: TreeProof)

  function ColumnBytes(arity: nat, c: Column, config: nat): seq<int> {
    U32(c.node) + U64(|c.labels|) + Digests(c.labels) + TreeBytes(arity, c.tree, config)
  }

  function ColumnSize(arity: nat, levels: nat, layers: nat, config: nat): int {
    4 + 8 + 32 * layers + TreeSize(arity, levels, config)
  }

  /** What C1 writes with: partitions, challenges of each, and the shape of sectors and trees. */
  datatype Params = Params(partitions: nat, challenges: nat, layers: nat, dLevels: nat, arity: nat, levels: nat,
                           config: nat)

  /** A challenge's proofs: trees D and R, the columns of the node and of its parents, and the labels. */
  datatype Challenge = Challenge(
    node: nat, treeD: TreeProof, treeR: TreeProof, own: Column, drg: seq<Column>, exp: seq<Column>, labels: seq<int>)

  ghost predicate TreeFits(arity: nat, levels: nat, p: TreeProof) { Full(arity, p.path) && |p.path| == levels > 0 }

  ghost predicate ColumnFits(p: Params, c: Column) { |c.labels| == p.layers && TreeFits(p.arity, p.levels, c.tree) }

  ghost predicate Fits(p: Params, c: Challenge) {
    && p.layers >= 1 && p.config <= 1
    && TreeFits(2, p.dLevels, c.treeD) && TreeFits(p.arity, p.levels, c.treeR)
    && ColumnFits(p, c.own) && |c.drg| == BASE && |c.exp| == EXP
    && (forall i :: 0 <= i < BASE ==> ColumnFits(p, c.drg[i]))
    && (forall i :: 0 <= i < EXP ==> ColumnFits(p, c.exp[i]))
    && |c.labels| >= p.layers * (PARENTS + 1)
  }

  function ColumnsBytes(arity: nat, cs: seq<Column>, config: nat): seq<int> {
    if cs == [] then [] else ColumnsBytes(arity, cs[..|cs| - 1], config) + ColumnBytes(arity, cs[|cs| - 1], config)
  }

  function TreePart(p: Params, c: Challenge): seq<int> {
    TreeBytes(2, c.treeD, SINGLE_PROOF) + TreeBytes(p.arity, c.treeR, p.config)
  }

  function NodePart(p: Params, c: Challenge): seq<int>
    requires p.layers >= 1 && |c.labels| >= p.layers * (PARENTS + 1)
  {
    ColumnBytes(p.arity, c.own, p.config) + U64(BASE) + ColumnsBytes(p.arity, c.drg, p.config)
      + U64(EXP) + ColumnsBytes(p.arity, c.exp, p.config)
      + LabelBytes(c.labels, PARENTS + 1, c.node, p.layers, false) + LabelBytes(c.labels, PARENTS + 1, c.node,
            p.layers, true)
  }

  function TreePartSize(p: Params): int { TreeSize(2, p.dLevels, SINGLE_PROOF) + TreeSize(p.arity, p.levels, p.config) }

  function NodePartSize(p: Params): int {
    LabelSize(p.layers, false) + LabelSize(p.layers, true)
      + ((1 + BASE + EXP) * ColumnSize(p.arity, p.levels, p.layers, p.config) + 2 * 8)
  }

  lemma {:induction false} ColumnsSize(p: Params, cs: seq<Column>)
    requires p.config <= 1 && forall i :: 0 <= i < |cs| ==> ColumnFits(p, cs[i])
    ensures |ColumnsBytes(p.arity, cs, p.config)| == |cs| * ColumnSize(p.arity, p.levels, p.layers, p.config)
  {
    hide Le, TreeBytes, TreeSize;
    if cs != [] {
      var n, each := |cs| - 1, ColumnSize(p.arity, p.levels, p.layers, p.config);
      ColumnsSize(p, cs[..n]);
      TreeSizeRight(p.arity, cs[n].tree, p.config);
      assert (n + 1) * each == n * each + each;
    }
  }

  /** Both parts of a challenge's proofs have the size that readers of the files assume. */
  lemma PartSizes(p: Params, c: Challenge)
    requires Fits(p, c)
    ensures |TreePart(p, c)| == TreePartSize(p) && |NodePart(p, c)| == NodePartSize(p)
  {
    hide Le, TreeBytes, TreeSize, LabelBytes, LabelSize, ColumnBytes, ColumnSize;
    TreeSizeRight(2, c.treeD, SINGLE_PROOF);
    TreeSizeRight(p.arity, c.treeR, p.config);
    ColumnsSize(p, [c.own]);
    assert [c.own][..0] == [];
    ColumnsSize(p, c.drg);
    ColumnsSize(p, c.exp);
    LabelSizeRight(c.labels, PARENTS + 1, c.node, p.layers, false);
    LabelSizeRight(c.labels, PARENTS + 1, c.node, p.layers, true);
  }

  method WriteColumn(arity: nat, c: Column, config: nat) returns (out: seq<int>)
    requires Full(arity, c.tree.path) && c.tree.path != []
    ensures out == ColumnBytes(arity, c, config)
  {
    hide Le, TreeBytes;
    out := U32(c.node) + U64(|c.labels|);
    for l := 0 to |c.labels|
      invariant out == U32(c.node) + U64(|c.labels|) + Digests(c.labels[..l])
    {
      assert c.labels[..l + 1][..l] == c.labels[..l];
      out := out + Digest(c.labels[l]);
    }
    assert c.labels[..|c.labels|] == c.labels;
    var tree := WriteTree(arity, c.tree, config);
    out := out + tree;
  }

  method WriteColumns(p: Params, cs: seq<Column>) returns (out: seq<int>)
    requires forall i :: 0 <= i < |cs| ==> ColumnFits(p, cs[i])
    ensures out == ColumnsBytes(p.arity, cs, p.config)
  {
    hide ColumnBytes;
    out := [];
    for k := 0 to |cs|
      invariant out == ColumnsBytes(p.arity, cs[..k], p.config)
    {
      assert cs[..k + 1][..k] == cs[..k];
      var column := WriteColumn(p.arity, cs[k], p.config);
      out := out + column;
    }
    assert cs[..|cs|] == cs;
  }

  method WriteTreeProof(p: Params, c: Challenge) returns (out: seq<int>)
    requires Fits(p, c)
    ensures out == TreePart(p, c)
  {
    var treeD := WriteTree(2, c.treeD, SINGLE_PROOF);
    var treeR := WriteTree(p.arity, c.treeR, p.config);
    out := treeD + treeR;
  }

  method WriteNodeProof(p: Params, c: Challenge) returns (out: seq<int>)
    requires Fits(p, c)
    ensures out == NodePart(p, c)
  {
    hide Le, ColumnBytes, ColumnsBytes, LabelBytes, TreeFits;
    var own := WriteOwn(p, c.own);
    var drg := WriteColumns(p, c.drg);
    var exp := WriteColumns(p, c.exp);
    var labels := WriteLabelProof(c.labels, PARENTS + 1, c.node, p.layers, false);
    var enc := WriteLabelProof(c.labels, PARENTS + 1, c.node, p.layers, true);
    out := own + U64(BASE) + drg + U64(EXP) + exp + labels + enc;
  }

  method WriteOwn(p: Params, c: Column) returns (out: seq<int>)
    requires ColumnFits(p, c)
    ensures out == ColumnBytes(p.arity, c, p.config)
  {
    out := WriteColumn(p.arity, c, p.config);
  }
}
