/** The stacked graph PC1 labels: node identifiers, parents, and the sequential
  * definition every concurrent run has to reproduce.
  */
module Pc1Graph {
  import opened RingMath

  /** A 32-byte label.  A hasher thread owns a pair of sectors; one Digest stands for its pair. */
  type Digest = int

  const PARENTS := 14
  const BASE_PARENTS := 6
  const READS := 13
  const LAYER_1_REPEAT := 3               // half blocks are pairs of labels: 2 * 3 for the first layer
  const LAYERS_GT_1_REPEAT := 7           // and 2 * 7 for all others
  const WORD := 0x1_0000_0000_0000_0000   // identifiers are 64-bit

  datatype Config = Config(
    layerSize: nat,                       // nodes in a layer
    total: nat,                           // node_stop: layers * layerSize
    nodesPerPage: nat,
    pages: nat,                           // NODE_BUFFER_BATCHES
    parentEntries: nat,                   // PARENT_BUFFER_BATCHES
    batchSize: nat,                       // COORD_BATCH_SIZE
    batchCount: nat,                      // COORD_BATCH_COUNT
    hashers: seq<nat>,                    // hasher threads of each coordinator
    base: (nat, nat) -> nat,              // parent file, entries 1..5 of a node
    expander: (nat, nat) -> nat,          // parent file, entries 6..13 of a node
    hash: (nat, nat, nat, seq<Digest>) -> Digest)

  ghost predicate Wf(c: Config) {
    && 0 < c.layerSize && 0 < c.nodesPerPage && 1 < c.pages && 0 < c.parentEntries
    && 0 < c.batchSize && 1 < c.batchCount && 0 < |c.hashers|
    && c.total < WORD
    && Slot(c.layerSize, c.nodesPerPage) == 0
    && Slot(c.total, c.nodesPerPage) == 0 && Slot(c.total, c.batchSize) == 0
    && (forall k :: 0 <= k < |c.hashers| ==> c.hashers[k] > 0)
    && (forall n: nat, j: nat :: 0 < n < c.layerSize && j < BASE_PARENTS ==> c.base(n, j) < n)
    && (forall n: nat, j: nat :: n < c.layerSize ==> c.expander(n, j) < c.layerSize)
  }

  /** A well-formed configuration: one hasher, two layers of two nodes, pages of one node. */
  lemma SmallConfig(hash: (nat, nat, nat, seq<Digest>) -> Digest)
    ensures Wf(Config(2, 4, 1, 4, 8, 1, 2, [1], (n, j) => 0, (n, j) => 0, hash))
  {
    assert Slot(2, 1) == Slot(1, 1) == Slot(0, 1) == 0;
    assert Slot(4, 1) == Slot(3, 1) == Slot(2, 1);
  }

  /** node_id_t::node and page position of an identifier. */
  function NodeOf(c: Config, x: nat): nat requires c.layerSize > 0 { Slot(x, c.layerSize) }
  function PageOf(c: Config, x: nat): nat requires c.nodesPerPage > 0 { Div(x, c.nodesPerPage) }
  function RowOf(c: Config, x: nat): (r: nat)
    requires c.nodesPerPage > 0
    ensures r < c.nodesPerPage
  {
    Slot(x, c.nodesPerPage)
  }

  function EntryOf(c: Config, x: nat): (r: nat)
    requires c.nodesPerPage > 0 && c.pages > 0
    ensures r < c.pages
  {
    Slot(PageOf(c, x), c.pages)
  }

  /** Parent j of node x: the previous node, five more of the layer, eight of the layer before. */
  function ParentId(c: Config, x: nat, j: nat): (p: nat)
    requires c.layerSize > 0 && NodeOf(c, x) > 0 && j < PARENTS
  {
    var n := NodeOf(c, x);
    if j == 0 then x - 1
    else if j < BASE_PARENTS then LayerStart(c, x) + c.base(n, j)
    else if x < c.layerSize then x - 1
    else LayerStart(c, x) - c.layerSize + c.expander(n, j)
  }

  function LayerStart(c: Config, x: nat): (r: nat)
    requires c.layerSize > 0
    ensures r + NodeOf(c, x) == x
    ensures x >= c.layerSize ==> r >= c.layerSize
    decreases x
  {
    if x < c.layerSize then 0 else c.layerSize + LayerStart(c, x - c.layerSize)
  }

  /** How many of the pointers the hash of node x consumes. */
  function ParentCount(c: Config, x: nat): (r: nat)
    requires c.layerSize > 0
    ensures r <= PARENTS
  {
    if NodeOf(c, x) == 0 then 0 else if x < c.layerSize then BASE_PARENTS else PARENTS
  }

  lemma ParentBefore(c: Config, x: nat, j: nat)
    requires Wf(c) && NodeOf(c, x) > 0 && j < PARENTS
    ensures ParentId(c, x, j) < x
  {
    var n := NodeOf(c, x);
    assert j < BASE_PARENTS ==> c.base(n, j) < n;
    assert c.expander(n, j) < c.layerSize;
  }

  /** The sequential definition: the label of node x for hasher i of coordinator k. */
  ghost function Label(c: Config, k: nat, i: nat, x: nat): Digest
    requires Wf(c)
    decreases x
  {
    c.hash(k, i, x, Inputs(c, k, i, x))
  }

  ghost function Inputs(c: Config, k: nat, i: nat, x: nat): (r: seq<Digest>)
    requires Wf(c)
    ensures |r| == ParentCount(c, x)
    ensures forall j :: 0 <= j < |r| ==> ParentId(c, x, j) < x && r[j] == Label(c, k, i, ParentId(c, x, j))
    decreases x, 0
  {
    seq(ParentCount(c, x), j requires 0 <= j < ParentCount(c, x) =>
      (ParentBefore(c, x, j); Label(c, k, i, ParentId(c, x, j))))
  }

  /** How many labels a hash consumes: none at node 0 of a layer, six in the first layer, fourteen above. */
  lemma InputLengths(c: Config, k: nat, i: nat, x: nat)
    requires Wf(c)
    ensures Slot(x, c.layerSize) == 0 ==> Inputs(c, k, i, x) == []
    ensures Slot(x, c.layerSize) > 0 && x < c.layerSize ==> |Inputs(c, k, i, x)| == 2 * LAYER_1_REPEAT
    ensures Slot(x, c.layerSize) > 0 && x >= c.layerSize ==> |Inputs(c, k, i, x)| == 2 * LAYERS_GT_1_REPEAT
  {
    hide Slot, Label;
  }

  /** Two identifiers at most one ring apart share no slot of the node buffer. */
  lemma {:induction false} PositionsDiffer(c: Config, x: nat, y: nat)
    requires Wf(c) && x < y && PageOf(c, y) < PageOf(c, x) + c.pages
    ensures EntryOf(c, x) != EntryOf(c, y) || RowOf(c, x) != RowOf(c, y)
  {
    DivMonotone(x, y, c.nodesPerPage);
    if PageOf(c, x) < PageOf(c, y) {
      SlotsDiffer(PageOf(c, x), PageOf(c, y), c.pages);
    }
  }
}
