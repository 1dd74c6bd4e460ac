/** Which labels the hash of a node is fed, and which labels its proof lists. */
module LabelOrder {
  import opened RingMath
  import Graph = Pc1Graph

  const BASE := 6
  const EXP := 8
  const PARENTS := BASE + EXP
  const NODE_0_REPEAT := 1
  const NODE_0_BLOCKS := 2
  const LAYER_1_REPEAT := Graph.LAYER_1_REPEAT
  const LAYERS_GT_1_REPEAT := Graph.LAYERS_GT_1_REPEAT
  const NODE_GT_0_BLOCKS := 20
  const LABEL_PARENTS := 37
  const LAYER_ONE_REPEAT_SEQ := 6
  const LAYER_ONE_FINAL_SEQ := LABEL_PARENTS % (LAYER_ONE_REPEAT_SEQ * BASE)
  const LAYER_N_REPEAT_SEQ := 2
  const LAYER_N_FINAL_SEQ := LABEL_PARENTS % (LAYER_N_REPEAT_SEQ * PARENTS)

  /** Half block `h` of a hash of `blocks` blocks: first the two prefix halves, then the pointers over
    * and over, and the padding as the very last.
    */
  function Half(prefix: seq<int>, ptrs: seq<int>, blocks: nat, repeat: nat, padding: int, h: nat): int
    requires |prefix| == 2 && repeat > 0 && |ptrs| >= 2 * repeat && h < 2 * blocks
  {
    if h == 2 * blocks - 1 then padding
    else if h < 2 then prefix[h]
    else ptrs[Slot(h - 2, 2 * repeat)]
  }

  /** The block loop of the two-lane SHA-256: which half blocks it loads, in order. The registers are
    * the remaining blocks, the remaining turns of the current pointer list, and the list itself.
    */
  method BlockLoop(prefix: seq<int>, ptrs: seq<int>, blocks: nat, repeat: nat, padding: int)
    returns (halves: seq<int>)
    requires |prefix| == 2 && repeat > 0 && |ptrs| >= 2 * repeat && blocks > 0
    ensures |halves| == 2 * blocks
    ensures forall h :: 0 <= h < 2 * blocks ==> halves[h] == Half(prefix, ptrs, blocks, repeat, padding, h)
  {
    var r8, r13, list, r11 := blocks, 1, prefix, 0;
    halves := [];
    while true
      invariant 0 < r8 <= blocks && |halves| == 2 * (blocks - r8)
      invariant if r8 == blocks then list == prefix && r11 == 0 && r13 == 1
                else list == ptrs && r11 == 2 * Slot(blocks - r8 - 1, repeat)
                     && r13 == repeat - Slot(blocks - r8 - 1, repeat)
      invariant forall h :: 0 <= h < |halves| ==> halves[h] == Half(prefix, ptrs, blocks, repeat, padding, h)
      decreases r8
    {
      ghost var b := blocks - r8;
      if b > 0 {
        HalfSlots(b - 1, repeat);
        SlotNext(b - 1, repeat);
      }
      halves := halves + [list[r11]];
      r8 := r8 - 1;
      halves := halves + [if r8 == 0 then padding else list[r11 + 1]];
      r11 := r11 + 2;
      if r8 == 0 {
        break;
      }
      r13 := r13 - 1;
      if r13 == 0 {
        r13, list, r11 := repeat, ptrs, 0;
      }
    }
  }

  /** Two half blocks to a block: their places in the pointer list follow the block's turn. */
  lemma {:induction false} HalfSlots(b: nat, repeat: nat)
    requires repeat > 0
    ensures Slot(2 * b, 2 * repeat) == 2 * Slot(b, repeat) && Slot(2 * b + 1, 2 * repeat) == 2 * Slot(b, repeat) + 1
    decreases b
  {
    if b >= repeat {
      HalfSlots(b - repeat, repeat);
    }
  }

  /** The labels the block loop takes from the parents of a node above node 0. */
  function Feed(ptrs: seq<int>, repeat: nat): (r: seq<int>)
    requires repeat > 0 && |ptrs| >= 2 * repeat
    ensures |r| == LABEL_PARENTS
  {
    seq(LABEL_PARENTS, h requires 0 <= h < LABEL_PARENTS => ptrs[Slot(h, 2 * repeat)])
  }

  /** For a node above node 0 the loop reads the prefix, 37 parent labels, and the padding half block;
    * for node 0, the prefix and two padding half blocks.
    */
  method HashNode(prefix: seq<int>, node: nat, layer: nat, ptrs: seq<int>, pad0: int, pad1: int, padding: int)
    returns (halves: seq<int>)
    requires |prefix| == 2 && layer >= 1 && |ptrs| == PARENTS
    ensures halves == if node == 0 then prefix + [pad0, pad1]
                      else prefix + Feed(ptrs, if layer == 1 then LAYER_1_REPEAT else LAYERS_GT_1_REPEAT) + [padding]
  {
    if node == 0 {
      halves := BlockLoop(prefix, [pad0, pad0], NODE_0_BLOCKS, NODE_0_REPEAT, pad1);
      assert halves[2] == pad0;
    } else {
      var repeat := if layer == 1 then LAYER_1_REPEAT else LAYERS_GT_1_REPEAT;
      halves := BlockLoop(prefix, ptrs, NODE_GT_0_BLOCKS, repeat, padding);
      assert forall h :: 0 <= h < LABEL_PARENTS ==> halves[h + 2] == Feed(ptrs, repeat)[h];
    }
  }

  /** Padding of a message of 32-bit words: a one bit, zeros, and the length in bits as 64 bits, up to a
    * multiple of 16 words (section 5.1.1 of FIPS 180-4).
    */
  ghost predicate IsPadding(messageWords: nat, pad: seq<int>) {
    && |pad| >= 3 && (messageWords + |pad|) % 16 == 0 && |pad| < 3 + 16
    && pad[0] == 0x8000_0000
    && (forall i :: 0 < i < |pad| - 2 ==> pad[i] == 0)
    && pad[|pad| - 2] * 0x1_0000_0000 + pad[|pad| - 1] == 32 * messageWords
    && 0 <= pad[|pad| - 2] && 0 <= pad[|pad| - 1] < 0x1_0000_0000
  }

  /** Half blocks are 8 words. The padding half block is the padding after two prefix halves and 37
    * labels, and the two of node 0 are the padding after the prefix alone.
    */
  lemma PaddingIsStandard()
    ensures IsPadding(8 * (2 + LABEL_PARENTS), [0x8000_0000, 0, 0, 0, 0, 0, 0, 0x2700])
    ensures IsPadding(8 * 2, [0x8000_0000, 0, 0, 0, 0, 0, 0, 0] + [0, 0, 0, 0, 0, 0, 0, 0x200])
  {
    var pad := [0x8000_0000, 0, 0, 0, 0, 0, 0, 0] + [0, 0, 0, 0, 0, 0, 0, 0x200];
    assert pad == [0x8000_0000, 0, 0, 0, 0, 0, 0, 0, 0, 0, 0, 0, 0, 0, 0, 0x200];
  }

  /** Label `h` of layer `l` in the buffer that holds, layer by layer, a node and its parents. */
  function Listed(labels: seq<int>, inc: nat, l: nat, h: nat): int
    requires l >= 1 && inc == PARENTS + 1 && |labels| >= l * inc
  {
    if l == 1 then labels[Slot(h, BASE) + 1]
    else
      var x := Slot(h, PARENTS);
      if x < BASE then labels[x + 1 + (l - 1) * inc] else labels[x + 1 + (l - 2) * inc]
  }

  function LabelList(labels: seq<int>, inc: nat, l: nat): (r: seq<int>)
    requires l >= 1 && inc == PARENTS + 1 && |labels| >= l * inc
    ensures |r| == LABEL_PARENTS
  {
    seq(LABEL_PARENTS, h requires 0 <= h < LABEL_PARENTS => Listed(labels, inc, l, h))
  }

  /** An entry of the list, by turn and place. */
  lemma ListedAt(labels: seq<int>, inc: nat, l: nat, k: nat, c: nat)
    requires l >= 1 && inc == PARENTS + 1 && |labels| >= l * inc && c < (if l == 1 then BASE else PARENTS)
    ensures
      var h := if l == 1 then k * BASE + c else k * PARENTS + c;
      h < LABEL_PARENTS ==>
        LabelList(labels, inc, l)[h] == labels[c + 1 + (if c < BASE then (l - 1) * inc else (l - 2) * inc)]
  {
    SlotAfter(k, if l == 1 then BASE else PARENTS, c);
  }

  /** The label proof's loops over one layer. */
  method WriteLabels(labels: seq<int>, inc: nat, l: nat) returns (out: seq<int>)
    requires l >= 1 && inc == PARENTS + 1 && |labels| >= l * inc
    ensures out == LabelList(labels, inc, l)
  {
    if l == 1 {
      out := WriteLayerOne(labels, inc);
    } else {
      out := WriteLayerN(labels, inc, l);
    }
  }

  method WriteLayerOne(labels: seq<int>, inc: nat) returns (out: seq<int>)
    requires inc == PARENTS + 1 && |labels| >= inc
    ensures out == LabelList(labels, inc, 1)
  {
    hide LabelList, Slot;
    out := [];
    ghost var all := LabelList(labels, inc, 1);
    for k := 0 to LAYER_ONE_REPEAT_SEQ
      invariant |out| == k * BASE && out == all[..k * BASE]
    {
      for c := 0 to BASE
        invariant |out| == k * BASE + c && out == all[..k * BASE + c]
      {
        ListedAt(labels, inc, 1, k, c);
        out := out + [labels[c + 1]];
      }
    }
    for c := 0 to LAYER_ONE_FINAL_SEQ
      invariant |out| == 36 + c && out == all[..36 + c]
    {
      ListedAt(labels, inc, 1, 6, c);
      out := out + [labels[c + 1]];
    }
  }

  method WriteLayerN(labels: seq<int>, inc: nat, l: nat) returns (out: seq<int>)
    requires l > 1 && inc == PARENTS + 1 && |labels| >= l * inc
    ensures out == LabelList(labels, inc, l)
  {
    hide LabelList, Slot;
    out := [];
    ghost var all := LabelList(labels, inc, l);
    for k := 0 to LAYER_N_REPEAT_SEQ
      invariant |out| == k * PARENTS && out == all[..k * PARENTS]
    {
      for c := 0 to BASE
        invariant |out| == k * PARENTS + c && out == all[..k * PARENTS + c]
      {
        ListedAt(labels, inc, l, k, c);
        out := out + [labels[c + 1 + (l - 1) * inc]];
      }
      for c := 0 to EXP
        invariant |out| == k * PARENTS + BASE + c && out == all[..k * PARENTS + BASE + c]
      {
        ListedAt(labels, inc, l, k, BASE + c);
        out := out + [labels[c + 1 + BASE + (l - 2) * inc]];
      }
    }
    for c := 0 to LAYER_N_FINAL_SEQ
      invariant |out| == 28 + c && out == all[..28 + c]
    {
      ListedAt(labels, inc, l, 2, c);
      if c < BASE {
        out := out + [labels[c + 1 + (l - 1) * inc]];
      } else {
        out := out + [labels[c + 1 + (l - 2) * inc]];
      }
    }
  }

  lemma {:induction false} SlotAfter(k: nat, m: nat, c: nat)
    requires c < m
    ensures k * m + c >= 0 && Slot(k * m + c, m) == c
    decreases k
  {
    if k > 0 {
      assert k * m == (k - 1) * m + m;
      SlotAfter(k - 1, m, c);
    } else {
      assert 0 * m == 0;
    }
  }

  /** The challenged node and its parents, layer by layer. */
  ghost predicate NodesOk(labels: seq<int>, lookup: (nat, nat) -> int, challenge: nat, drg: seq<nat>, exp: seq<nat>,
                          layers: nat)
  {
    && |drg| == BASE && |exp| == EXP && |labels| == layers * (PARENTS + 1)
    && (forall i, l :: 0 <= l < layers && i == l * (PARENTS + 1) ==>
          i < |labels| && labels[i] == lookup(l, challenge))
    && (forall l, c :: 0 <= l < layers && 0 <= c < PARENTS ==>
          ParentAt(labels, l, c) == lookup(l, if c < BASE then drg[c] else exp[c - BASE]))
  }

  function ParentAt(labels: seq<int>, l: nat, c: nat): int {
    var i := l * (PARENTS + 1) + 1 + c;
    if i < |labels| then labels[i] else 0
  }

  method GetNodes(lookup: (nat, nat) -> int, challenge: nat, drg: seq<nat>, exp: seq<nat>, layers: nat)
    returns (labels: seq<int>)
    requires |drg| == BASE && |exp| == EXP
    ensures NodesOk(labels, lookup, challenge, drg, exp, layers)
  {
    labels := [];
    for l := 0 to layers
      invariant NodesOk(labels, lookup, challenge, drg, exp, l)
    {
      var row := [lookup(l, challenge)];
      for k := 0 to BASE
        invariant |row| == 1 + k && row[0] == lookup(l, challenge)
        invariant forall c :: 0 <= c < k ==> ParentAt(row, 0, c) == lookup(l, drg[c])
      {
        row := row + [lookup(l, drg[k])];
      }
      for k := 0 to EXP
        invariant |row| == 1 + BASE + k && row[0] == lookup(l, challenge)
        invariant forall c :: 0 <= c < BASE + k ==> ParentAt(row, 0, c) == lookup(l,
              if c < BASE then drg[c] else exp[c - BASE])
      {
        row := row + [lookup(l, exp[k])];
      }
      NodesMore(labels, lookup, challenge, drg, exp, l, row);
      labels := labels + row;
    }
  }

  lemma NodesMore(labels: seq<int>, lookup: (nat, nat) -> int, challenge: nat, drg: seq<nat>, exp: seq<nat>, l: nat,
                  row: seq<int>)
    requires NodesOk(labels, lookup, challenge, drg, exp, l) && |row| == PARENTS + 1 && row[0] == lookup(l, challenge)
    requires forall c :: 0 <= c < PARENTS ==> ParentAt(row, 0, c) == lookup(l,
          if c < BASE then drg[c] else exp[c - BASE])
    ensures NodesOk(labels + row, lookup, challenge, drg, exp, l + 1)
  {
    var all := labels + row;
    forall m, c | 0 <= m < l + 1 && 0 <= c < PARENTS
      ensures ParentAt(all, m, c) == lookup(m, if c < BASE then drg[c] else exp[c - BASE])
    {
      var i := m * (PARENTS + 1) + 1 + c;
      if m < l {
        assert all[i] == labels[i] == ParentAt(labels, m, c);
      } else {
        assert all[i] == row[1 + c] == ParentAt(row, 0, c);
      }
    }
  }

  /** The parents file's entries for a node; the first base parent is the node before. */
  ghost predicate Parents(c: Graph.Config, y: nat, drg: seq<nat>, exp: seq<nat>)
  {
    && y > 0 && |drg| == BASE && |exp| == EXP && drg[0] == y - 1
    && (forall j :: 1 <= j < BASE ==> drg[j] == c.base(y, j))
    && (forall j :: 0 <= j < EXP ==> exp[j] == c.expander(y, BASE + j))
  }

  ghost function LayerLabel(c: Graph.Config, k: nat, i: nat, l: nat, n: nat): int
    requires Graph.Wf(c)
  {
    Graph.Label(c, k, i, l * c.layerSize + n)
  }

  /** Parent `j` of a node, as the listing finds it in the buffer. */
  lemma ParentListed(c: Graph.Config, k: nat, i: nat, y: nat, l: nat, j: nat, drg: seq<nat>, exp: seq<nat>,
                     labels: seq<int>, lookup: (nat, nat) -> int, layers: nat)
    requires Graph.Wf(c) && 0 < y < c.layerSize && Parents(c, y, drg, exp) && 1 <= l <= layers
    requires NodesOk(labels, lookup, y, drg, exp, layers)
    requires forall m: nat, n: nat :: lookup(m, n) == LayerLabel(c, k, i, m, n)
    requires j < (if l == 1 then BASE else PARENTS)
    ensures
      var x := (l - 1) * c.layerSize + y;
      && x >= 0 && j < Graph.ParentCount(c, x)
      && Graph.Inputs(c, k, i, x)[j] == ParentAt(labels, if j < BASE then l - 1 else l - 2, j)
  {
    hide Graph.Label;
    ParentPlace(c, y, l, j, drg, exp);
    var x := (l - 1) * c.layerSize + y;
    var m, n := if j < BASE then l - 1 else l - 2, if j < BASE then drg[j] else exp[j - BASE];
    assert Graph.Inputs(c, k, i, x)[j] == Graph.Label(c, k, i, Graph.ParentId(c, x, j));
    assert ParentAt(labels, m, j) == lookup(m, n) == LayerLabel(c, k, i, m, n);
  }

  /** A parent's identifier, from the layer and the node the parents file names. */
  lemma ParentPlace(c: Graph.Config, y: nat, l: nat, j: nat, drg: seq<nat>, exp: seq<nat>)
    requires Graph.Wf(c) && 0 < y < c.layerSize && Parents(c, y, drg, exp) && 1 <= l
    requires j < (if l == 1 then BASE else PARENTS)
    ensures
      var x := (l - 1) * c.layerSize + y;
      && x >= 0 && Graph.NodeOf(c, x) == y && j < Graph.ParentCount(c, x)
      && Graph.ParentId(c, x, j)
         == if j < BASE then (l - 1) * c.layerSize + drg[j] else (l - 2) * c.layerSize + exp[j - BASE]
  {
    var x := (l - 1) * c.layerSize + y;
    SlotAfter(l - 1, c.layerSize, y);
    assert Graph.NodeOf(c, x) == y && Graph.LayerStart(c, x) == (l - 1) * c.layerSize;
    if l > 1 {
      assert (l - 1) * c.layerSize == (l - 2) * c.layerSize + c.layerSize;
      MulNat(c.layerSize, l - 2);
    }
  }

  /** Main result: the labels that the proof of a challenge lists for a layer are, in order, the 37
    * labels the node's hash was fed.
    */
  lemma ProofListsWhatIsHashed(c: Graph.Config, k: nat, i: nat, y: nat, l: nat, drg: seq<nat>, exp: seq<nat>,
                               labels: seq<int>, lookup: (nat, nat) -> int, layers: nat, ptrs: seq<int>)
    requires Graph.Wf(c) && 0 < y < c.layerSize && Parents(c, y, drg, exp) && 1 <= l <= layers
    requires NodesOk(labels, lookup, y, drg, exp, layers)
    requires forall m: nat, n: nat :: lookup(m, n) == LayerLabel(c, k, i, m, n)
    requires |ptrs| == PARENTS
    requires
      var repeat := if l == 1 then LAYER_1_REPEAT else LAYERS_GT_1_REPEAT;
      Graph.Inputs(c, k, i, (l - 1) * c.layerSize + y) == ptrs[..2 * repeat]
    ensures |labels| >= l * (PARENTS + 1)
    ensures LabelList(labels, PARENTS + 1, l) == Feed(ptrs, if l == 1 then LAYER_1_REPEAT else LAYERS_GT_1_REPEAT)
  {
    var repeat := if l == 1 then LAYER_1_REPEAT else LAYERS_GT_1_REPEAT;
    hide Graph.Label, LayerLabel;
    forall h | 0 <= h < LABEL_PARENTS ensures LabelList(labels, PARENTS + 1, l)[h] == ptrs[Slot(h, 2 * repeat)] {
      var j := Slot(h, 2 * repeat);
      ParentListed(c, k, i, y, l, j, drg, exp, labels, lookup, layers);
      assert Listed(labels, PARENTS + 1, l, h) == ParentAt(labels, if j < BASE then l - 1 else l - 2, j);
      assert Graph.Inputs(c, k, i, (l - 1) * c.layerSize + y)[j] == ptrs[j];
    }
  }
}
