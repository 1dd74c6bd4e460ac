/** A reader of C1's proof files. It knows no sizes but those of integers and digests: counts and types come
  * from the bytes. What the writers put down, it reads back.
  */
module C1Readers {
  import opened RingMath
  import TreePath
  import opened LabelOrder
  import opened C1Proofs

  /** What has been read and the bytes after it, or the bytes were not what they should be. */
  datatype Parsed<+T> = Bad | Good(value: T, rest: seq<int>)

  function Value(bytes: seq<int>): int { if bytes == [] then 0 else bytes[0] + 256 * Value(bytes[1..]) }

  function ReadInt(s: seq<int>, n: nat): Parsed<int> { if |s| < n then Bad else Good(Value(s[..n]), s[n..]) }

  /** A value that fits into `n` bytes. */
  predicate Fit(x: int, n: nat) { 0 <= x < Pow(256, n) }

  lemma {:induction false} ValueOfLe(x: int, n: nat)
    requires Fit(x, n)
    ensures Value(Le(x, n)) == x
  {
    if n > 0 {
      DivLess(x, 256, Pow(256, n - 1));
      ValueOfLe(x / 256, n - 1);
      assert Le(x, n)[1..] == Le(x / 256, n - 1);
    }
  }

  lemma IntBack(x: int, n: nat, rest: seq<int>)
    requires Fit(x, n)
    ensures ReadInt(Le(x, n) + rest, n) == Good(x, rest)
  {
    ValueOfLe(x, n);
    hide Le, Value, Pow;
    assert (Le(x, n) + rest)[..n] == Le(x, n) && (Le(x, n) + rest)[n..] == rest;
  }

  function ReadDigests(s: seq<int>, k: nat): Parsed<seq<int>> {
    if k == 0 then Good([], s)
    else match ReadDigests(s, k - 1)
      case Bad => Bad
      case Good(xs, s1) => match ReadInt(s1, 32) { case Bad => Bad case Good(x, s2) => Good(xs + [x], s2) }
  }

  ghost predicate DigestsFit(xs: seq<int>) { forall i :: 0 <= i < |xs| ==> Fit(xs[i], 32) }

  lemma {:induction false} DigestsBack(xs: seq<int>, rest: seq<int>)
    requires DigestsFit(xs)
    ensures ReadDigests(Digests(xs) + rest, |xs|) == Good(xs, rest)
  {
    hide Le, Fit, ReadInt;
    if xs != [] {
      var n := |xs| - 1;
      DigestsBack(xs[..n], Digest(xs[n]) + rest);
      assert Digests(xs) + rest == Digests(xs[..n]) + (Digest(xs[n]) + rest) && xs[..n] + [xs[n]] == xs;
      IntBack(xs[n], 32, rest);
    } else {
      assert Digests(xs) + rest == rest;
    }
  }

  function ReadElement(s: seq<int>): Parsed<Element> {
    match ReadInt(s, 8)
    case Bad => Bad
    case Good(k, s1) =>
      if k < 0 then Bad else
      match ReadDigests(s1, k)
      case Bad => Bad
      case Good(hashes, s2) =>
        match ReadInt(s2, 8)
        case Bad => Bad
        case Good(index, s3) => if index < 0 then Bad else Good(TreePath.PathElement(index, hashes), s3)
  }

  ghost predicate ElementFits(arity: nat, e: Element) {
    arity > 0 && |e.hashes| == arity - 1 && Fit(arity - 1, 8) && DigestsFit(e.hashes) && Fit(e.index, 8)
  }

  lemma ElementBack(arity: nat, e: Element, rest: seq<int>)
    requires ElementFits(arity, e)
    ensures ReadElement(ElementBytes(arity, e) + rest) == Good(e, rest)
  {
    hide Le, Fit, ReadInt, Digests, ReadDigests, DigestsFit;
    var after := Digests(e.hashes) + (U64(e.index) + rest);
    assert ElementBytes(arity, e) + rest == U64(arity - 1) + after;
    IntBack(arity - 1, 8, after);
    DigestsBack(e.hashes, U64(e.index) + rest);
    IntBack(e.index, 8, rest);
  }

  function ReadPath(s: seq<int>, n: nat): Parsed<seq<Element>> {
    if n == 0 then Good([], s)
    else match ReadPath(s, n - 1)
      case Bad => Bad
      case Good(path, s1) => match ReadElement(s1) { case Bad => Bad case Good(e, s2) => Good(path + [e], s2) }
  }

  ghost predicate PathFits(arity: nat, path: seq<Element>) {
    forall i :: 0 <= i < |path| ==> ElementFits(arity, path[i])
  }

  lemma {:induction false} PathBack(arity: nat, path: seq<Element>, rest: seq<int>)
    requires PathFits(arity, path)
    ensures ReadPath(PathBytes(arity, path) + rest, |path|) == Good(path, rest)
  {
    hide ElementBytes, ReadElement, ElementFits;
    if path != [] {
      var n := |path| - 1;
      PathBack(arity, path[..n], ElementBytes(arity, path[n]) + rest);
      assert PathBytes(arity, path) + rest == PathBytes(arity, path[..n]) + (ElementBytes(arity, path[n]) + rest);
      assert path[..n] + [path[n]] == path;
      ElementBack(arity, path[n], rest);
    } else {
      assert PathBytes(arity, path) + rest == rest;
    }
  }

  /** A path with its length in front. */
  function ReadCounted(s: seq<int>): Parsed<seq<Element>> {
    match ReadInt(s, 8)
    case Bad => Bad
    case Good(n, s1) => if n < 0 then Bad else ReadPath(s1, n)
  }

  lemma CountedBack(arity: nat, path: seq<Element>, rest: seq<int>)
    requires PathFits(arity, path) && Fit(|path|, 8)
    ensures ReadCounted(U64(|path|) + (PathBytes(arity, path) + rest)) == Good(path, rest)
  {
    hide Le, Fit, PathFits, PathBytes, ReadPath, ReadInt;
    IntBack(|path|, 8, PathBytes(arity, path) + rest);
    PathBack(arity, path, rest);
  }

  /** The type of a tree proof, and the proof; a sub proof comes in two paths, with root and leaf behind. */
  function ReadTree(s: seq<int>): Parsed<(int, TreeProof)> {
    match ReadInt(s, 4)
    case Bad => Bad
    case Good(proofType, s1) =>
      if proofType == SINGLE_PROOF then
        match ReadEnds(s1)
        case Bad => Bad
        case Good(ends, s2) =>
          match ReadCounted(s2)
          case Bad => Bad
          case Good(path, s3) => Good((proofType, TreeProof(ends.0, ends.1, path)), s3)
      else if proofType == SUB_PROOF then
        match ReadCounted(s1)
        case Bad => Bad
        case Good(base, s2) =>
          match ReadCounted(s2)
          case Bad => Bad
          case Good(sub, s3) =>
            match ReadEnds(s3)
            case Bad => Bad
            case Good(ends, s4) => Good((proofType, TreeProof(ends.0, ends.1, base + sub)), s4)
      else Bad
  }

  /** Root and leaf. */
  function ReadEnds(s: seq<int>): Parsed<(int, int)> {
    match ReadInt(s, 32)
    case Bad => Bad
    case Good(root, s1) => match ReadInt(s1, 32) { case Bad => Bad case Good(leaf, s2) => Good((root, leaf), s2) }
  }

  ghost predicate TreeValues(arity: nat, p: TreeProof) {
    p.path != [] && PathFits(arity, p.path) && Fit(|p.path|, 8) && Fit(p.root, 32) && Fit(p.leaf, 32)
  }

  lemma EndsBack(p: TreeProof, rest: seq<int>)
    requires Fit(p.root, 32) && Fit(p.leaf, 32)
    ensures ReadEnds(Digest(p.root) + (Digest(p.leaf) + rest)) == Good((p.root, p.leaf), rest)
  {
    hide Le, Fit, ReadInt;
    IntBack(p.root, 32, Digest(p.leaf) + rest);
    IntBack(p.leaf, 32, rest);
  }

  lemma SmallFits()
    ensures Fit(0, 4) && Fit(1, 4) && Fit(1, 8)
  {
  }

  lemma FewerFit(x: int, y: int, n: nat)
    requires 0 <= x <= y && Fit(y, n)
    ensures Fit(x, n)
  {
  }

  /** Main result: a tree proof of type 0 or 1 is read back from its bytes, wherever they stand. */
  lemma TreeBack(arity: nat, p: TreeProof, proofType: nat, rest: seq<int>)
    requires TreeValues(arity, p) && proofType <= 1
    ensures ReadTree(TreeBytes(arity, p, proofType) + rest) == Good((proofType, p), rest)
  {
    hide Le, Fit, PathFits, PathBytes, ReadCounted, ReadEnds, ReadInt;
    SmallFits();
    if proofType == SINGLE_PROOF {
      var path := U64(|p.path|) + (PathBytes(arity, p.path) + rest);
      var ends := Digest(p.root) + (Digest(p.leaf) + path);
      assert TreeBytes(arity, p, proofType) + rest == U32(proofType) + ends;
      IntBack(proofType, 4, ends);
      EndsBack(p, path);
      CountedBack(arity, p.path, rest);
    } else {
      SubBack(arity, p, rest);
    }
  }

  lemma Regroup(a: seq<int>, b: seq<int>, c: seq<int>, d: seq<int>, e: seq<int>, f: seq<int>, g: seq<int>,
                rest: seq<int>)
    ensures a + b + c + d + e + f + g + rest == a + (b + (c + (d + (e + (f + (g + rest))))))
  {
    var fg := f + (g + rest);
    assert a + b + c + d + e + f + g + rest == a + b + c + d + e + fg;
    var de := d + (e + fg);
    assert a + b + c + d + e + fg == a + b + c + de;
    assert a + b + c + de == a + (b + (c + de));
  }

  /** The bytes of a sub proof, piece after piece. */
  lemma SubBytes(arity: nat, p: TreeProof, n: nat, rest: seq<int>)
    requires |p.path| == n + 1
    ensures
      TreeBytes(arity, p, SUB_PROOF) + rest
      == U32(SUB_PROOF) + (U64(n) + (PathBytes(arity, p.path[..n])
           + (U64(1) + (PathBytes(arity, p.path[n..]) + (Digest(p.root) + (Digest(p.leaf) + rest))))))
  {
    hide Le, PathBytes;
    Regroup(U32(SUB_PROOF), U64(n), PathBytes(arity, p.path[..n]), U64(1), PathBytes(arity, p.path[n..]),
            Digest(p.root), Digest(p.leaf), rest);
  }

  lemma SubBack(arity: nat, p: TreeProof, rest: seq<int>)
    requires TreeValues(arity, p)
    ensures ReadTree(TreeBytes(arity, p, SUB_PROOF) + rest) == Good((SUB_PROOF as int, p), rest)
  {
    hide Le, Fit, PathBytes, ReadCounted, ReadEnds, ReadInt, ElementFits, TreeBytes;
    var n := |p.path| - 1;
    var base, sub := p.path[..n], p.path[n..];
    SmallFits();
    FewerFit(n, |p.path|, 8);
    var ends := Digest(p.root) + (Digest(p.leaf) + rest);
    var second := U64(1) + (PathBytes(arity, sub) + ends);
    var first := U64(n) + (PathBytes(arity, base) + second);
    SubBytes(arity, p, n, rest);
    IntBack(SUB_PROOF, 4, first);
    CountedBack(arity, base, second);
    CountedBack(arity, sub, ends);
    EndsBack(p, rest);
    assert base + sub == p.path;
  }

  function ReadColumn(s: seq<int>, config: nat): Parsed<Column> {
    match ReadInt(s, 4)
    case Bad => Bad
    case Good(node, s1) =>
      match ReadInt(s1, 8)
      case Bad => Bad
      case Good(k, s2) =>
        if k < 0 || node < 0 then Bad else
        match ReadDigests(s2, k)
        case Bad => Bad
        case Good(labels, s3) =>
          match ReadTree(s3)
          case Bad => Bad
          case Good(tree, s4) => if tree.0 != config then Bad else Good(Column(node, labels, tree.1), s4)
  }

  ghost predicate ColumnValues(p: Params, c: Column) {
    Fit(c.node, 4) && Fit(|c.labels|, 8) && DigestsFit(c.labels) && TreeValues(p.arity, c.tree)
  }

  lemma ColumnBack(p: Params, c: Column, rest: seq<int>)
    requires ColumnValues(p, c) && p.config <= 1
    ensures ReadColumn(ColumnBytes(p.arity, c, p.config) + rest, p.config) == Good(c, rest)
  {
    hide Le, Fit, ReadInt, ReadDigests, Digests, ReadTree, TreeBytes, TreeValues, DigestsFit;
    var tree := TreeBytes(p.arity, c.tree, p.config) + rest;
    var labels := Digests(c.labels) + tree;
    assert ColumnBytes(p.arity, c, p.config) + rest == U32(c.node) + (U64(|c.labels|) + labels);
    IntBack(c.node, 4, U64(|c.labels|) + labels);
    IntBack(|c.labels|, 8, labels);
    DigestsBack(c.labels, tree);
    TreeBack(p.arity, c.tree, p.config, rest);
  }

  function ReadColumns(s: seq<int>, n: nat, config: nat): Parsed<seq<Column>> {
    if n == 0 then Good([], s)
    else match ReadColumns(s, n - 1, config)
      case Bad => Bad
      case Good(cs, s1) => match ReadColumn(s1, config) { case Bad => Bad case Good(c, s2) => Good(cs + [c], s2) }
  }

  lemma {:induction false} ColumnsBack(p: Params, cs: seq<Column>, rest: seq<int>)
    requires p.config <= 1 && forall i :: 0 <= i < |cs| ==> ColumnValues(p, cs[i])
    ensures ReadColumns(ColumnsBytes(p.arity, cs, p.config) + rest, |cs|, p.config) == Good(cs, rest)
  {
    hide ColumnBytes, ReadColumn, ColumnValues;
    if cs != [] {
      var n := |cs| - 1;
      var last := ColumnBytes(p.arity, cs[n], p.config);
      ColumnsBack(p, cs[..n], last + rest);
      assert ColumnsBytes(p.arity, cs, p.config) + rest == ColumnsBytes(p.arity, cs[..n], p.config) + (last + rest);
      assert cs[..n] + [cs[n]] == cs;
      ColumnBack(p, cs[n], rest);
    } else {
      assert ColumnsBytes(p.arity, cs, p.config) + rest == rest;
    }
  }

  /** Columns with their number in front. */
  function ReadFamily(s: seq<int>, config: nat): Parsed<seq<Column>> {
    match ReadInt(s, 8)
    case Bad => Bad
    case Good(n, s1) => if n < 0 then Bad else ReadColumns(s1, n, config)
  }

  lemma FamilyBack(p: Params, cs: seq<Column>, rest: seq<int>)
    requires p.config <= 1 && Fit(|cs|, 8) && forall i :: 0 <= i < |cs| ==> ColumnValues(p, cs[i])
    ensures ReadFamily(U64(|cs|) + (ColumnsBytes(p.arity, cs, p.config) + rest), p.config) == Good(cs, rest)
  {
    hide Le, Fit, ReadInt, ReadColumns, ColumnsBytes, ColumnValues;
    IntBack(|cs|, 8, ColumnsBytes(p.arity, cs, p.config) + rest);
    ColumnsBack(p, cs, rest);
  }

  /** What a label proof says of one layer: the labels that were hashed, the layer and the node. */
  datatype LayerProof = LayerProof(labels: seq<int>, layer: int, node: int)

  function ReadLayer(s: seq<int>): Parsed<LayerProof> {
    match ReadInt(s, 8)
    case Bad => Bad
    case Good(k, s1) =>
      if k < 0 then Bad else
      match ReadDigests(s1, k)
      case Bad => Bad
      case Good(labels, s2) =>
        match ReadInt(s2, 4)
        case Bad => Bad
        case Good(l, s3) =>
          match ReadInt(s3, 8) { case Bad => Bad case Good(node, s4) => Good(LayerProof(labels, l, node), s4) }
  }

  ghost predicate LabelValues(labels: seq<int>, challenge: nat, layers: nat) {
    DigestsFit(labels) && Fit(challenge, 8) && Fit(layers, 4) && Fit(layers, 8)
  }

  lemma ListFits(labels: seq<int>, inc: nat, l: nat)
    requires l >= 1 && inc == PARENTS + 1 && |labels| >= l * inc && DigestsFit(labels)
    ensures DigestsFit(LabelList(labels, inc, l)) && Fit(LABEL_PARENTS, 8)
  {
    assert Fit(LABEL_PARENTS, 8) by { assert Pow(256, 8) == 256 * Pow(256, 7); }
    hide Fit;
  }

  lemma LayerBack(labels: seq<int>, inc: nat, challenge: nat, l: nat, layers: nat, rest: seq<int>)
    requires l >= 1 && inc == PARENTS + 1 && |labels| >= l * inc
    requires LabelValues(labels, challenge, layers) && l <= layers
    ensures ReadLayer(LayerBytes(labels, inc, challenge, l) + rest)
            == Good(LayerProof(LabelList(labels, inc, l), l, challenge), rest)
  {
    FewerFit(l, layers, 4);
    ListFits(labels, inc, l);
    hide Le, Fit, ReadInt, ReadDigests, Digests, LabelList, DigestsFit;
    var list := LabelList(labels, inc, l);
    var ends := U32(l) + (U64(challenge) + rest);
    assert LayerBytes(labels, inc, challenge, l) + rest == U64(LABEL_PARENTS) + (Digests(list) + ends);
    IntBack(LABEL_PARENTS, 8, Digests(list) + ends);
    DigestsBack(list, ends);
    IntBack(l, 4, U64(challenge) + rest);
    IntBack(challenge, 8, rest);
  }

  function ReadLayers(s: seq<int>, n: nat): Parsed<seq<LayerProof>> {
    if n == 0 then Good([], s)
    else match ReadLayers(s, n - 1)
      case Bad => Bad
      case Good(ls, s1) => match ReadLayer(s1) { case Bad => Bad case Good(l, s2) => Good(ls + [l], s2) }
  }

  /** The labels that each of the first layers was hashed from. */
  function LayerProofs(labels: seq<int>, inc: nat, challenge: nat, l: nat): (r: seq<LayerProof>)
    requires inc == PARENTS + 1 && |labels| >= l * inc
    ensures |r| == l
  {
    if l == 0 then []
    else LayerProofs(labels, inc, challenge, l - 1) + [LayerProof(LabelList(labels, inc, l), l, challenge)]
  }

  lemma {:induction false} LayersBack(labels: seq<int>, inc: nat, challenge: nat, l: nat, layers: nat, rest: seq<int>)
    requires inc == PARENTS + 1 && |labels| >= l * inc && LabelValues(labels, challenge, layers) && l <= layers
    ensures ReadLayers(LayersBytes(labels, inc, challenge, 1, l) + rest, l)
            == Good(LayerProofs(labels, inc, challenge, l), rest)
  {
    hide LayerBytes, ReadLayer, LabelList, LabelValues;
    if l > 0 {
      var last := LayerBytes(labels, inc, challenge, l);
      LayersBack(labels, inc, challenge, l - 1, layers, last + rest);
      assert LayersBytes(labels, inc, challenge, 1, l) + rest
          == LayersBytes(labels, inc, challenge, 1, l - 1) + (last + rest);
      LayerBack(labels, inc, challenge, l, layers, rest);
    } else {
      assert LayersBytes(labels, inc, challenge, 1, l) + rest == rest;
    }
  }

  /** Layers with their number in front. */
  function ReadLabels(s: seq<int>): Parsed<seq<LayerProof>> {
    match ReadInt(s, 8)
    case Bad => Bad
    case Good(n, s1) => if n < 0 then Bad else ReadLayers(s1, n)
  }

  /** A challenge's second part: its own column, its parents', the label proof and the encoding proof. */
  datatype NodeProof = NodeProof(own: Column, drg: seq<Column>, exp: seq<Column>, layers: seq<LayerProof>,
                                 encoding: LayerProof)

  function ReadNode(s: seq<int>, config: nat): Parsed<NodeProof> {
    match ReadColumn(s, config)
    case Bad => Bad
    case Good(own, s1) =>
      match ReadFamily(s1, config)
      case Bad => Bad
      case Good(drg, s2) =>
        match ReadFamily(s2, config)
        case Bad => Bad
        case Good(exp, s3) =>
          match ReadLabels(s3)
          case Bad => Bad
          case Good(layers, s4) =>
            match ReadLayer(s4)
            case Bad => Bad
            case Good(encoding, s5) => Good(NodeProof(own, drg, exp, layers, encoding), s5)
  }

  /** All values of a challenge fit into the fields they are written to. */
  ghost predicate ChallengeValues(p: Params, c: Challenge) {
    && ColumnValues(p, c.own) && LabelValues(c.labels, c.node, p.layers)
    && (forall i :: 0 <= i < |c.drg| ==> ColumnValues(p, c.drg[i]))
    && (forall i :: 0 <= i < |c.exp| ==> ColumnValues(p, c.exp[i]))
  }

  lemma LabelsBack(p: Params, c: Challenge, rest: seq<int>)
    requires p.layers >= 1 && |c.labels| >= p.layers * (PARENTS + 1) && LabelValues(c.labels, c.node, p.layers)
    ensures
      var enc := LabelBytes(c.labels, PARENTS + 1, c.node, p.layers, true) + rest;
      && ReadLabels(LabelBytes(c.labels, PARENTS + 1, c.node, p.layers, false) + enc)
         == Good(LayerProofs(c.labels, PARENTS + 1, c.node, p.layers), enc)
      && ReadLayer(enc)
         == Good(LayerProof(LabelList(c.labels, PARENTS + 1, p.layers), p.layers, c.node), rest)
  {
    hide LayerBytes, ReadLayer, LabelList, Le, ReadInt, ReadLayers, LayerProofs;
    var inc := PARENTS + 1;
    var enc := LabelBytes(c.labels, inc, c.node, p.layers, true) + rest;
    var all := LayersBytes(c.labels, inc, c.node, 1, p.layers);
    assert U64(p.layers) + all + enc == U64(p.layers) + (all + enc);
    IntBack(p.layers, 8, all + enc);
    LayersBack(c.labels, inc, c.node, p.layers, p.layers, enc);
    var last := LayerBytes(c.labels, inc, c.node, p.layers);
    assert LayersBytes(c.labels, inc, c.node, p.layers, p.layers) == [] + last == last;
    LayerBack(c.labels, inc, c.node, p.layers, p.layers, rest);
  }

  /** The bytes of a challenge's second part, piece after piece. */
  lemma NodeBytes(p: Params, c: Challenge, rest: seq<int>)
    requires p.layers >= 1 && |c.labels| >= p.layers * (PARENTS + 1)
    ensures
      var labels := LabelBytes(c.labels, PARENTS + 1, c.node, p.layers, false)
                      + (LabelBytes(c.labels, PARENTS + 1, c.node, p.layers, true) + rest);
      NodePart(p, c) + rest
      == ColumnBytes(p.arity, c.own, p.config)
         + (U64(BASE) + (ColumnsBytes(p.arity, c.drg, p.config)
                           + (U64(EXP) + (ColumnsBytes(p.arity, c.exp, p.config) + labels))))
  {
    hide Le, LabelBytes, ColumnBytes, ColumnsBytes;
    Regroup(ColumnBytes(p.arity, c.own, p.config), U64(BASE), ColumnsBytes(p.arity, c.drg, p.config), U64(EXP),
            ColumnsBytes(p.arity, c.exp, p.config), LabelBytes(c.labels, PARENTS + 1, c.node, p.layers, false),
            LabelBytes(c.labels, PARENTS + 1, c.node, p.layers, true), rest);
  }

  lemma ParentsFit()
    ensures Fit(BASE, 8) && Fit(EXP, 8)
  {
    assert Pow(256, 8) == 256 * Pow(256, 7);
  }

  /** Main result: a challenge's columns, its parents' columns and, layer by layer, the labels its node was
    * hashed from are read back from the node part.
    */
  lemma NodeBack(p: Params, c: Challenge, rest: seq<int>)
    requires Fits(p, c) && ChallengeValues(p, c)
    ensures ReadNode(NodePart(p, c) + rest, p.config)
            == Good(NodeProof(c.own, c.drg, c.exp, LayerProofs(c.labels, PARENTS + 1, c.node, p.layers),
                              LayerProof(LabelList(c.labels, PARENTS + 1, p.layers), p.layers, c.node)), rest)
  {
    hide Pow, Le, Fit, ReadInt, ColumnBytes, ColumnsBytes, LabelBytes, ReadColumn, ReadFamily, ReadLabels, ReadLayer;
    hide LabelList, LayerProofs, ColumnValues, LabelValues, NodePart, ColumnFits, TreeFits;
    var labels := LabelBytes(c.labels, PARENTS + 1, c.node, p.layers, false)
      + (LabelBytes(c.labels, PARENTS + 1, c.node, p.layers, true) + rest);
    var exp := U64(EXP) + (ColumnsBytes(p.arity, c.exp, p.config) + labels);
    var drg := U64(BASE) + (ColumnsBytes(p.arity, c.drg, p.config) + exp);
    ParentsFit();
    NodeBytes(p, c, rest);
    ColumnBack(p, c.own, drg);
    FamilyBack(p, c.drg, exp);
    FamilyBack(p, c.exp, labels);
    LabelsBack(p, c, rest);
  }
}
