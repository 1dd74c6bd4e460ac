/** What the GPU buffers of one stream hold, sector by sector, and the kernels' gather indices. */
module Pc2Blocks {
  import opened RingMath
  import opened TreeRows
  import opened Pc2Tree

  /** Batches of arity * group nodes over `streams` streams; each stream reduces Pow(arity, height)
    * batches, and the CPU the rest.
    */
  datatype Setup = Setup(arity: nat, group: nat, streams: nat, sectors: nat, height: nat, top: nat) {
    predicate Ok() {
      && arity >= 2 && group > 0 && group % arity == 0 && streams > 0 && sectors > 0 && top >= 2
      && streams * (arity * group) == Pow(arity, top)
    }

    /** The levels above the leaves of one partition's tree. */
    function Levels(): nat { height + top }
  }

  /** How many groups of a row each stream has: as many as its scheduler has nodes in that layer. */
  function Groups(u: Setup, l: nat): nat
    requires 1 <= l <= u.height + 1
  {
    Pow(u.arity, u.height + 1 - l)
  }

  /** The first node of row `l` that stream `r` hashes for node `n` of its scheduler. */
  function Base(u: Setup, r: nat, l: nat, n: nat): nat
    requires 1 <= l <= u.height + 1
  {
    u.group * (r * Groups(u, l) + n)
  }

  /** A stream's part of a row is whole groups, and all parts make the row. */
  lemma RowSize(u: Setup, l: nat)
    requires u.Ok() && 1 <= l <= u.height + 1
    ensures Pow(u.arity, u.Levels() - l) == u.group * (u.streams * Groups(u, l))
  {
    var a, e := u.arity, u.height + 1 - l;
    PowAdd(a, u.top, e);
    assert a * Pow(a, u.Levels() - l) == Pow(a, u.top + e);
    SizeAlgebra(a, u.streams, u.group, Pow(a, e), Pow(a, u.Levels() - l));
  }

  lemma SizeAlgebra(a: nat, s: nat, g: nat, x: nat, row: nat)
    requires a > 0 && a * row == (s * (a * g)) * x
    ensures row == g * (s * x)
  {
    assert (s * (a * g)) * x == a * (g * (s * x));
    MulGap(a, row, g * (s * x));
  }

  lemma BaseFits(u: Setup, r: nat, l: nat, n: nat)
    requires u.Ok() && 1 <= l <= u.height + 1 && r < u.streams && n < Groups(u, l)
    ensures Base(u, r, l, n) + u.group <= Pow(u.arity, u.Levels() - l)
  {
    hide Pow, Groups;
    RowSize(u, l);
    PartFits(u.group, u.streams, Groups(u, l), r, n);
  }

  lemma PartFits(g: nat, streams: nat, w: nat, r: nat, n: nat)
    requires r < streams && n < w
    ensures g * (r * w + n) + g <= g * (streams * w)
  {
    NextInPart(streams, w, r, n);
    MulUpTo(g, r * w + n + 1, streams * w);
    Distribute(g, r * w + n);
  }

  lemma NextInPart(streams: nat, w: nat, r: nat, n: nat)
    requires r < streams && n < w
    ensures r * w + n + 1 <= streams * w
  {
    MulUpTo(w, r + 1, streams);
    assert w * (r + 1) == r * w + w && w * streams == streams * w;
  }

  /** A node's children are the groups one row down, arity of them in a row. */
  lemma BaseDown(u: Setup, r: nat, l: nat, n: nat, p: nat)
    requires 1 < l <= u.height + 1
    ensures Base(u, r, l - 1, u.arity * n + p) == u.arity * Base(u, r, l, n) + u.group * p
  {
    var a, g, w := u.arity, u.group, Groups(u, l);
    assert Groups(u, l - 1) == a * w;
    assert g * (r * (a * w) + (a * n + p)) == g * (a * (r * w + n)) + g * p;
    assert g * (a * (r * w + n)) == a * (g * (r * w + n));
  }

  /** A buffer holds, sector after sector, one group of every sector's row. */
  ghost predicate BlockOk(u: Setup, f: seq<int> -> int, rows: seq<seq<int>>, r: nat, l: nat, n: nat, block: seq<int>)
    requires u.Ok() && 1 <= l <= u.height + 1 && r < u.streams && n < Groups(u, l)
    requires |rows| == u.sectors && forall s :: 0 <= s < u.sectors ==> |rows[s]| == Pow(u.arity, u.Levels())
  {
    BaseFits(u, r, l, n);
    && |block| == u.sectors * u.group
    && forall s, i :: 0 <= s < u.sectors && 0 <= i < u.group ==>
         At(block, u.group, s, i) == Row(f, u.arity, rows[s], u.Levels(), l)[Base(u, r, l, n) + i]
  }

  /** The element of a sector in a buffer. */
  function At(block: seq<int>, group: nat, s: nat, i: nat): int {
    if s * group + i < |block| then block[s * group + i] else 0
  }

  /** Kernel indices: which pointer, and where behind it, input `i` of hash `h` is read from. */
  function GatherPtr(h: nat, i: nat, perPtr: nat, arity: nat): nat
    requires perPtr > 0 && arity > 0
  {
    SlotIsMod(h * arity + i, perPtr);
    SlotIsMod((h * arity + i) / perPtr, arity);
    (h * arity + i) / perPtr % arity
  }

  function GatherIdx(h: nat, i: nat, perPtr: nat, arity: nat): nat
    requires perPtr > 0 && arity > 0
  {
    MulUpTo(arity, 1, perPtr);
    SlotIsMod(h * arity + i, perPtr);
    SlotIsMod(h * arity + i, arity * perPtr);
    (h * arity + i) / (arity * perPtr) * perPtr + (h * arity + i) % perPtr
  }

  /** The inputs of a sector's hash run through the pointers in order, a group from each. */
  lemma GatherIs(s: nat, j: nat, i: nat, group: nat, arity: nat)
    requires group > 0 && arity > 0 && j < group && i < arity
    ensures
      var e := j * arity + i;
      && 0 <= e < arity * group && 0 <= e / group < arity && 0 <= e % group < group
      && e == group * (e / group) + e % group
      && GatherPtr(s * group + j, i, group, arity) == e / group
      && GatherIdx(s * group + j, i, group, arity) == s * group + e % group
  {
    hide GatherPtr, GatherIdx;
    var e := j * arity + i;
    RunInside(arity, group, j, i);
    DivLess(e, group, arity);
    SlotIsMod(e, group);
    WholeIndex(s, j, i, group, arity, e);
  }

  lemma RunInside(arity: nat, group: nat, j: nat, i: nat)
    requires j < group && i < arity
    ensures 0 <= j * arity + i < arity * group == group * arity
  {
    MulGap(arity, j, group);
    assert j * arity == arity * j && group * arity == arity * group;
  }

  lemma WholeIndex(s: nat, j: nat, i: nat, group: nat, arity: nat, e: nat)
    requires group > 0 && arity > 0 && e == j * arity + i < arity * group
    requires 0 <= e / group < arity && e == group * (e / group) + e % group && 0 <= e % group < group
    ensures GatherPtr(s * group + j, i, group, arity) == e / group
    ensures GatherIdx(s * group + j, i, group, arity) == s * group + e % group
  {
    IndexParts(s, j, i, group, arity, e / group, e % group);
    var x := (s * group + j) * arity + i;
    MulUpTo(arity, 1, group);
    EuclidUnique(x, arity * group, s, e);
    EuclidUnique(x, group, arity * s + e / group, e % group);
    EuclidUnique(arity * s + e / group, arity, s, e / group);
  }

  lemma IndexParts(s: nat, j: nat, i: nat, g: nat, a: nat, q: nat, r: nat)
    requires j * a + i == g * q + r
    ensures (s * g + j) * a + i == (a * g) * s + (j * a + i) == g * (a * s + q) + r
  {
    assert (s * g + j) * a == s * g * a + j * a;
    assert s * g * a == (a * g) * s && (a * g) * s == g * (a * s);
    assert g * (a * s + q) == g * (a * s) + g * q;
  }

  /** Hash a group of every sector from `arity` buffers. */
  function HashPtrs(u: Setup, f: seq<int> -> int, blocks: seq<seq<int>>): (r: seq<int>)
    requires u.Ok()
    ensures |r| == u.sectors * u.group
  {
    seq(u.sectors * u.group, h requires 0 <= h < u.sectors * u.group =>
      f(Inputs(blocks, h, u.group, u.arity)))
  }

  /** The inputs of hash `h`. */
  function Inputs(blocks: seq<seq<int>>, h: nat, perPtr: nat, arity: nat): (r: seq<int>)
    requires perPtr > 0 && arity > 0
    ensures |r| == arity
  {
    seq(arity, i requires 0 <= i < arity => Fetch(blocks, GatherPtr(h, i, perPtr, arity), GatherIdx(h, i, perPtr,
          arity)))
  }

  function Fetch(blocks: seq<seq<int>>, ptr: nat, idx: nat): int {
    if ptr < |blocks| && idx < |blocks[ptr]| then blocks[ptr][idx] else 0
  }

  ghost predicate RowsOk(u: Setup, rows: seq<seq<int>>) {
    u.Ok() && |rows| == u.sectors && forall s :: 0 <= s < u.sectors ==> |rows[s]| == Pow(u.arity, u.Levels())
  }

  lemma InBlock(sectors: nat, group: nat, s: nat, i: nat)
    requires s < sectors && i < group
    ensures 0 <= s * group + i < sectors * group
  {
    MulUpTo(group, s + 1, sectors);
    assert group * (s + 1) == s * group + group && group * sectors == sectors * group;
  }

  /** Buffers with a node's children make the buffer with the node. */
  lemma HashPtrsRight(u: Setup, f: seq<int> -> int, rows: seq<seq<int>>, r: nat, l: nat, n: nat, blocks: seq<seq<int>>)
    requires RowsOk(u, rows) && 1 < l <= u.height + 1 && r < u.streams && n < Groups(u, l) && |blocks| == u.arity
    requires u.arity * n + u.arity <= Groups(u, l - 1)
    requires forall p :: 0 <= p < u.arity ==> BlockOk(u, f, rows, r, l - 1, u.arity * n + p, blocks[p])
    ensures BlockOk(u, f, rows, r, l, n, HashPtrs(u, f, blocks))
  {
    BaseFits(u, r, l, n);
    hide Row, Pow, Base, Groups, HashRow;
    forall s, j | 0 <= s < u.sectors && 0 <= j < u.group
      ensures At(HashPtrs(u, f, blocks), u.group, s, j) == Row(f, u.arity, rows[s], u.Levels(), l)[Base(u, r, l, n) + j]
    {
      HashPtrsAt(u, f, rows, r, l, n, blocks, s, j);
    }
  }

  lemma HashPtrsAt(u: Setup, f: seq<int> -> int, rows: seq<seq<int>>, r: nat, l: nat, n: nat, blocks: seq<seq<int>>,
                   s: nat, j: nat)
    requires RowsOk(u, rows) && 1 < l <= u.height + 1 && r < u.streams && n < Groups(u, l) && |blocks| == u.arity
    requires u.arity * n + u.arity <= Groups(u, l - 1) && s < u.sectors && j < u.group
    requires forall p :: 0 <= p < u.arity ==> BlockOk(u, f, rows, r, l - 1, u.arity * n + p, blocks[p])
    ensures Base(u, r, l, n) + u.group <= Pow(u.arity, u.Levels() - l)
    ensures At(HashPtrs(u, f, blocks), u.group, s, j) == Row(f, u.arity, rows[s], u.Levels(), l)[Base(u, r, l, n) + j]
  {
    hide Row, Pow, Base, Groups, HashRow, GatherPtr, GatherIdx;
    BaseFits(u, r, l, n);
    InBlock(u.sectors, u.group, s, j);
    var a, h, x := u.arity, s * u.group + j, Base(u, r, l, n) + j;
    var below := Row(f, a, rows[s], u.Levels(), l - 1);
    RowAgain(f, a, rows[s], u.Levels(), l);
    HashRowAt(f, a, below, Pow(a, u.Levels() - l), x);
    var inputs := Inputs(blocks, h, u.group, a);
    forall i | 0 <= i < a ensures inputs[i] == below[a * x + i] {
      InputAt(u, f, rows, r, l, n, blocks, s, j, i, h, a * x + i);
    }
    RunIs(below, a * x, a, inputs);
  }

  lemma RunIs(row: seq<int>, p: nat, a: nat, inputs: seq<int>)
    requires p + a <= |row| && |inputs| == a && forall i :: 0 <= i < a ==> inputs[i] == row[p + i]
    ensures inputs == row[p..p + a]
  {
  }

  lemma InputAt(u: Setup, f: seq<int> -> int, rows: seq<seq<int>>, r: nat, l: nat, n: nat, blocks: seq<seq<int>>,
                s: nat, j: nat, i: nat, h: nat, x: nat)
    requires RowsOk(u, rows) && 1 < l <= u.height + 1 && r < u.streams && n < Groups(u, l) && |blocks| == u.arity
    requires u.arity * n + u.arity <= Groups(u, l - 1) && s < u.sectors && j < u.group && i < u.arity
    requires forall p :: 0 <= p < u.arity ==> BlockOk(u, f, rows, r, l - 1, u.arity * n + p, blocks[p])
    requires h == s * u.group + j && x == u.arity * (Base(u, r, l, n) + j) + i
    ensures x < Pow(u.arity, u.Levels() - l + 1)
    ensures Fetch(blocks, GatherPtr(h, i, u.group, u.arity), GatherIdx(h, i, u.group, u.arity))
            == Row(f, u.arity, rows[s], u.Levels(), l - 1)[x]
  {
    hide Row, Pow, Base, Groups, HashRow, GatherPtr, GatherIdx;
    var e := j * u.arity + i;
    GatherIs(s, j, i, u.group, u.arity);
    var p, k := e / u.group, e % u.group;
    InputPlace(u, r, l, n, p, k, j, i);
    BaseFits(u, r, l - 1, u.arity * n + p);
    InBlock(u.sectors, u.group, s, k);
    FromBlock(u, f, rows, r, l - 1, u.arity * n + p, blocks[p], s, k);
  }

  lemma InputPlace(u: Setup, r: nat, l: nat, n: nat, p: nat, k: nat, j: nat, i: nat)
    requires 1 < l <= u.height + 1 && j * u.arity + i == u.group * p + k
    ensures Base(u, r, l - 1, u.arity * n + p) + k == u.arity * (Base(u, r, l, n) + j) + i
  {
    hide Base;
    BaseDown(u, r, l, n, p);
    PackedPlace(0, 0, j, u.arity, i, Base(u, r, l, n));
  }

  lemma FromBlock(u: Setup, f: seq<int> -> int, rows: seq<seq<int>>, r: nat, l: nat, n: nat, block: seq<int>, s: nat,
                  k: nat)
    requires RowsOk(u, rows) && 1 <= l <= u.height + 1 && r < u.streams && n < Groups(u, l)
    requires s < u.sectors && k < u.group && BlockOk(u, f, rows, r, l, n, block)
    ensures Base(u, r, l, n) + u.group <= Pow(u.arity, u.Levels() - l)
    ensures s * u.group + k < |block|
    ensures block[s * u.group + k] == Row(f, u.arity, rows[s], u.Levels(), l)[Base(u, r, l, n) + k]
  {
    hide Row, Pow, Base, Groups;
    BaseFits(u, r, l, n);
    InBlock(u.sectors, u.group, s, k);
    assert At(block, u.group, s, k) == Row(f, u.arity, rows[s], u.Levels(), l)[Base(u, r, l, n) + k];
  }

  /** Where a stream's batch starts among the partition's leaves. */
  function BatchStart(u: Setup, r: nat, n: nat): nat {
    n * (u.arity * u.group) + u.arity * u.group * Pow(u.arity, u.height) * r
  }

  lemma BatchStartIs(u: Setup, r: nat, n: nat)
    ensures BatchStart(u, r, n) == u.arity * Base(u, r, 1, n)
  {
    var a, g, w := u.arity, u.group, Pow(u.arity, u.height);
    assert a * (g * (r * w + n)) == a * g * (r * w) + a * g * n;
    assert a * g * (r * w) == a * g * w * r;
  }

  /** What the reader delivers: layer after layer, node after node, the sectors interleaved. */
  ghost predicate Loaded(data: seq<int>, labels: (nat, nat, nat) -> int, layers: nat, batch: nat, sectors: nat,
                         start: nat) {
    forall i, k, s :: 0 <= i < layers && 0 <= k < batch && 0 <= s < sectors ==>
      Loading(data, i, k, s, batch, sectors) == labels(i, start + k, s)
  }

  function Loading(data: seq<int>, i: nat, k: nat, s: nat, batch: nat, sectors: nat): int {
    Element(data, (i * batch + k) * sectors + s)
  }

  function Element(data: seq<int>, i: nat): int { if i < |data| then data[i] else 0 }

  /** Kernel index of the first column hash: it puts the sectors one after the other. */
  function ColumnIndex(h: nat, i: nat, batches: nat, stride: nat): nat
    requires batches > 0
  {
    SlotIsMod(h, batches);
    h % batches * stride + h / batches + i * stride * batches
  }

  /** Kernel index of the first hash of tree R. */
  function StridedIndex(h: nat, i: nat, batches: nat, stride: nat, arity: nat): nat
    requires batches > 0
  {
    SlotIsMod(h, batches);
    h % batches * arity * stride + h / batches + i * stride
  }

  lemma ColumnIndexIs(s: nat, k: nat, i: nat, batch: nat, sectors: nat)
    requires k < batch
    ensures ColumnIndex(s * batch + k, i, batch, sectors) == (i * batch + k) * sectors + s
  {
    assert s * batch == batch * s;
    EuclidUnique(s * batch + k, batch, s, k);
    assert (i * batch + k) * sectors == i * sectors * batch + k * sectors;
  }

  lemma StridedIndexIs(s: nat, j: nat, i: nat, group: nat, sectors: nat, arity: nat)
    requires j < group
    ensures StridedIndex(s * group + j, i, group, sectors,
                         arity) == (0 * (arity * group) + (j * arity + i)) * sectors + s
  {
    assert s * group == group * s;
    EuclidUnique(s * group + j, group, s, j);
    assert (j * arity + i) * sectors == j * arity * sectors + i * sectors;
  }

  function Column(data: seq<int>, h: nat, layers: nat, batch: nat, sectors: nat): (r: seq<int>)
    requires batch > 0
    ensures |r| == layers
  {
    seq(layers, i requires 0 <= i < layers => Element(data, ColumnIndex(h, i, batch, sectors)))
  }

  /** The column hashes of a batch, as the GPU leaves them. */
  function ColumnBlock(u: Setup, colHash: seq<int> -> int, layers: nat, data: seq<int>): (r: seq<int>)
    requires u.Ok()
    ensures |r| == u.sectors * (u.arity * u.group)
  {
    BatchPositive(u);
    seq(u.sectors * (u.arity * u.group), h requires 0 <= h < u.sectors * (u.arity * u.group) =>
      colHash(Column(data, h, layers, u.arity * u.group, u.sectors)))
  }

  lemma BatchPositive(u: Setup)
    requires u.Ok()
    ensures u.arity * u.group > 0
  {
    MulUpTo(u.arity, 1, u.group);
  }

  /** Tree C's leaves: the hashed columns of each sector of a partition. */
  function ColumnRow(u: Setup, colHash: seq<int> -> int, layers: nat, labels: (nat, nat, nat) -> int, first: nat,
                     s: nat): (r: seq<int>)
    ensures |r| == Pow(u.arity, u.Levels())
  {
    seq(Pow(u.arity, u.Levels()), x requires 0 <= x < Pow(u.arity, u.Levels()) =>
      colHash(seq(layers, i requires 0 <= i < layers => labels(i, first + x, s))))
  }

  /** The column kernel writes sector s's hashed column of node k to place s * batch + k. */
  lemma ColumnBlockRight(u: Setup, colHash: seq<int> -> int, layers: nat, data: seq<int>, labels: (nat, nat,
        nat) -> int,
                         first: nat, start: nat, s: nat, k: nat)
    requires u.Ok() && s < u.sectors && k < u.arity * u.group && start + k < Pow(u.arity, u.Levels())
    requires Loaded(data, labels, layers, u.arity * u.group, u.sectors, first + start)
    ensures At(ColumnBlock(u, colHash, layers, data), u.arity * u.group, s, k)
            == ColumnRow(u, colHash, layers, labels, first, s)[start + k]
  {
    hide Pow, Element, ColumnIndex;
    var batch := u.arity * u.group;
    InBlock(u.sectors, batch, s, k);
    var column := Column(data, s * batch + k, layers, batch, u.sectors);
    forall i | 0 <= i < layers ensures column[i] == labels(i, first + start + k, s) {
      ColumnIndexIs(s, k, i, batch, u.sectors);
      assert Loading(data, i, k, s, batch, u.sectors) == labels(i, first + start + k, s);
    }
    assert column == seq(layers, i requires 0 <= i < layers => labels(i, first + (start + k), s));
  }

  /** A buffer after its first elements have been overwritten. */
  function Over(before: seq<int>, d: seq<int>): seq<int> { if |d| < |before| then d + before[|d|..] else d }

  /** Tree C's first row, hashed in place from the packed columns. */
  function HashPacked(u: Setup, f: seq<int> -> int, block: seq<int>): (r: seq<int>)
    requires u.Ok()
    ensures |r| == u.sectors * u.group
  {
    seq(u.sectors * u.group, h requires 0 <= h < u.sectors * u.group =>
      f(Packed(block, h, u.arity)))
  }

  function Packed(block: seq<int>, h: nat, arity: nat): (r: seq<int>)
    ensures |r| == arity
  {
    seq(arity, i requires 0 <= i < arity => Element(block, h * arity + i))
  }

  lemma HashPackedRight(u: Setup, f: seq<int> -> int, rows: seq<seq<int>>, r: nat, n: nat, block: seq<int>)
    requires RowsOk(u, rows) && r < u.streams && n < Groups(u, 1) && |block| == u.sectors * (u.arity * u.group)
    requires u.arity * Base(u, r, 1, n) + u.arity * u.group <= Pow(u.arity, u.Levels())
    requires forall s, k :: 0 <= s < u.sectors && 0 <= k < u.arity * u.group ==>
      At(block, u.arity * u.group, s, k) == rows[s][u.arity * Base(u, r, 1, n) + k]
    ensures BlockOk(u, f, rows, r, 1, n, HashPacked(u, f, block))
  {
    BaseFits(u, r, 1, n);
    hide Row, Pow, Base, Groups, HashRow;
    forall s, j | 0 <= s < u.sectors && 0 <= j < u.group
      ensures At(HashPacked(u, f, block), u.group, s, j) == Row(f, u.arity, rows[s], u.Levels(), 1)[Base(u, r, 1,
            n) + j]
    {
      HashPackedAt(u, f, rows, r, n, block, s, j);
    }
  }

  lemma HashPackedAt(u: Setup, f: seq<int> -> int, rows: seq<seq<int>>, r: nat, n: nat, block: seq<int>, s: nat, j: nat)
    requires RowsOk(u, rows) && r < u.streams && n < Groups(u, 1) && |block| == u.sectors * (u.arity * u.group)
    requires s < u.sectors && j < u.group
    requires u.arity * Base(u, r, 1, n) + u.arity * u.group <= Pow(u.arity, u.Levels())
    requires forall s, k :: 0 <= s < u.sectors && 0 <= k < u.arity * u.group ==>
      At(block, u.arity * u.group, s, k) == rows[s][u.arity * Base(u, r, 1, n) + k]
    ensures Base(u, r, 1, n) + u.group <= Pow(u.arity, u.Levels() - 1)
    ensures At(HashPacked(u, f, block), u.group, s, j) == Row(f, u.arity, rows[s], u.Levels(), 1)[Base(u, r, 1, n) + j]
  {
    hide Row, Pow, Base, Groups, HashRow;
    BaseFits(u, r, 1, n);
    InBlock(u.sectors, u.group, s, j);
    var a, h, x := u.arity, s * u.group + j, Base(u, r, 1, n) + j;
    RowAgain(f, a, rows[s], u.Levels(), 1);
    FirstRow(f, a, rows[s], u.Levels());
    HashRowAt(f, a, rows[s], Pow(a, u.Levels() - 1), x);
    var inputs := Packed(block, h, a);
    forall i | 0 <= i < a ensures inputs[i] == rows[s][a * x + i] {
      PackedPlace(s, u.group, j, a, i, Base(u, r, 1, n));
      PackedInput(u, rows, Base(u, r, 1, n), block, s, j, i, j * a + i, h * a + i, a * x + i);
    }
    RunIs(rows[s], a * x, a, inputs);
  }

  lemma PackedInput(u: Setup, rows: seq<seq<int>>, base: nat, block: seq<int>, s: nat, j: nat, i: nat, k: nat,
                    at: nat, x: nat)
    requires RowsOk(u, rows) && |block| == u.sectors * (u.arity * u.group)
    requires s < u.sectors && j < u.group && i < u.arity
    requires u.arity * base + u.arity * u.group <= Pow(u.arity, u.Levels())
    requires forall s, k :: 0 <= s < u.sectors && 0 <= k < u.arity * u.group ==>
      At(block, u.arity * u.group, s, k) == rows[s][u.arity * base + k]
    requires k == j * u.arity + i && at == s * (u.arity * u.group) + k && x == u.arity * base + k
    ensures x < Pow(u.arity, u.Levels()) && Element(block, at) == rows[s][x]
  {
    hide Pow;
    RunInside(u.arity, u.group, j, i);
    InBlock(u.sectors, u.arity * u.group, s, k);
    assert At(block, u.arity * u.group, s, k) == rows[s][u.arity * base + k];
  }

  lemma PackedPlace(s: nat, g: nat, j: nat, a: nat, i: nat, base: nat)
    ensures (s * g + j) * a + i == s * (a * g) + (j * a + i)
    ensures a * (base + j) + i == a * base + (j * a + i)
  {
    assert (s * g + j) * a == s * g * a + j * a;
    assert s * g * a == s * (a * g);
  }

  /** Tree R's first row, hashed from the interleaved replica. */
  function HashStrided(u: Setup, f: seq<int> -> int, data: seq<int>): (r: seq<int>)
    requires u.Ok()
    ensures |r| == u.sectors * u.group
  {
    seq(u.sectors * u.group, h requires 0 <= h < u.sectors * u.group =>
      f(seq(u.arity, i requires 0 <= i < u.arity => Element(data, StridedIndex(h, i, u.group, u.sectors, u.arity)))))
  }

  /** The strided hash reads what the packed one would read after unpacking. */
  lemma StridedIsPacked(u: Setup, f: seq<int> -> int, data: seq<int>, block: seq<int>)
    requires u.Ok() && |block| == u.sectors * (u.arity * u.group)
    requires forall s, k :: 0 <= s < u.sectors && 0 <= k < u.arity * u.group ==>
      At(block, u.arity * u.group, s, k) == Loading(data, 0, k, s, u.arity * u.group, u.sectors)
    ensures HashStrided(u, f, data) == HashPacked(u, f, block)
  {
    hide Loading, Element, StridedIndex, At;
    forall h | 0 <= h < u.sectors * u.group ensures HashStrided(u, f, data)[h] == HashPacked(u, f, block)[h] {
      var packed := Packed(block, h, u.arity);
      var strided := seq(u.arity, i requires 0 <= i < u.arity =>
        Element(data, StridedIndex(h, i, u.group, u.sectors, u.arity)));
      forall i | 0 <= i < u.arity ensures packed[i] == strided[i] {
        SameInput(u, data, block, h, i);
      }
      assert packed == strided;
    }
  }

  lemma SameInput(u: Setup, data: seq<int>, block: seq<int>, h: nat, i: nat)
    requires u.Ok() && |block| == u.sectors * (u.arity * u.group) && h < u.sectors * u.group && i < u.arity
    requires forall s, k :: 0 <= s < u.sectors && 0 <= k < u.arity * u.group ==>
      At(block, u.arity * u.group, s, k) == Loading(data, 0, k, s, u.arity * u.group, u.sectors)
    ensures Element(block, h * u.arity + i) == Element(data, StridedIndex(h, i, u.group, u.sectors, u.arity))
  {
    hide StridedIndex;
    DivLess(h, u.group, u.sectors);
    SlotIsMod(h, u.group);
    var s, j := h / u.group, h % u.group;
    StridedIndexIs(s, j, i, u.group, u.sectors, u.arity);
    GatherIs(s, j, i, u.group, u.arity);
    var k := j * u.arity + i;
    InBlock(u.sectors, u.arity * u.group, s, k);
    PackedPlace(s, u.group, j, u.arity, i, 0);
    assert At(block, u.arity * u.group, s, k) == Loading(data, 0, k, s, u.arity * u.group, u.sectors);
  }

  /** The gathered hash reads only the group at the start of each buffer. */
  lemma HashPtrsReads(u: Setup, f: seq<int> -> int, blocks: seq<seq<int>>, digests: seq<seq<int>>)
    requires u.Ok() && |blocks| == |digests| == u.arity
    requires forall i :: 0 <= i < u.arity ==>
      |digests[i]| == u.sectors * u.group <= |blocks[i]| && blocks[i][..u.sectors * u.group] == digests[i]
    ensures HashPtrs(u, f, blocks) == HashPtrs(u, f, digests)
  {
    hide GatherPtr, GatherIdx, Fetch;
    forall h: nat | h < u.sectors * u.group
      ensures HashPtrs(u, f, blocks)[h] == HashPtrs(u, f, digests)[h]
    {
      forall i: nat | i < u.arity
        ensures Inputs(blocks, h, u.group, u.arity)[i] == Inputs(digests, h, u.group, u.arity)[i]
      {
        FetchesSame(u, blocks, digests, h, i);
      }
      assert Inputs(blocks, h, u.group, u.arity) == Inputs(digests, h, u.group, u.arity);
    }
  }

  lemma FetchesSame(u: Setup, blocks: seq<seq<int>>, digests: seq<seq<int>>, h: nat, i: nat)
    requires u.Ok() && |blocks| == |digests| == u.arity && h < u.sectors * u.group && i < u.arity
    requires forall i :: 0 <= i < u.arity ==>
      |digests[i]| == u.sectors * u.group <= |blocks[i]| && blocks[i][..u.sectors * u.group] == digests[i]
    ensures Fetch(blocks, GatherPtr(h, i, u.group, u.arity), GatherIdx(h, i, u.group, u.arity))
            == Fetch(digests, GatherPtr(h, i, u.group, u.arity), GatherIdx(h, i, u.group, u.arity))
  {
    hide GatherPtr, GatherIdx;
    DivLess(h, u.group, u.sectors);
    SlotIsMod(h, u.group);
    var s, j := h / u.group, h % u.group;
    GatherIs(s, j, i, u.group, u.arity);
    var e := j * u.arity + i;
    InBlock(u.sectors, u.group, s, e % u.group);
    assert blocks[e / u.group][..u.sectors * u.group][s * u.group + e % u.group]
        == digests[e / u.group][s * u.group + e % u.group];
  }

  /** The packed hash reads only the batch at the start of its buffer. */
  lemma HashPackedReads(u: Setup, f: seq<int> -> int, buffer: seq<int>, block: seq<int>)
    requires u.Ok() && |block| == u.sectors * (u.arity * u.group) <= |buffer| && buffer[..|block|] == block
    ensures HashPacked(u, f, buffer) == HashPacked(u, f, block)
  {
    forall h: nat | h < u.sectors * u.group ensures HashPacked(u, f, buffer)[h] == HashPacked(u, f, block)[h] {
      forall i: nat | i < u.arity ensures Packed(buffer, h, u.arity)[i] == Packed(block, h, u.arity)[i] {
        RunInside(u.arity, u.sectors * u.group, h, i);
        TimesSwap(u.arity, u.sectors, u.group);
        assert buffer[..|block|][h * u.arity + i] == block[h * u.arity + i];
      }
      assert Packed(buffer, h, u.arity) == Packed(block, h, u.arity);
    }
  }
}
