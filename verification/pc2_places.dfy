/** Where PC2 writes: the offset tables of a tree file, and the nodes each write covers. */
module Pc2Places {
  import opened RingMath
  import opened TreeRows
  import opened TreeChunks
  import opened Pc2Blocks

  /** Offsets of the layers of a tree file, in nodes. */
  datatype TreeAddress = TreeAddress(layerOffsets: seq<nat>) {
    function Address(layer: nat, node: nat): nat
      requires layer < |layerOffsets|
    {
      layerOffsets[layer] + node
    }

    function DataSize(): nat
      requires |layerOffsets| > 0
    {
      layerOffsets[|layerOffsets| - 1] + 1
    }
  }

  /** The first `layerSkips` layers are not in the file. */
  method MakeAddress(nodeCount: nat, arity: nat, layerSkips: nat, ghost k: nat) returns (a: TreeAddress)
    requires arity >= 2 && nodeCount == Pow(arity, k) && layerSkips <= k
    ensures AddressOk(a, arity, k, layerSkips)
  {
    var count: nat, offset: nat, offsets: seq<nat> := nodeCount, 0, [];
    hide Pow, Offset;
    for i := 0 to layerSkips
      invariant count == Pow(arity, k - i)
    {
      PowDown(arity, k - i);
      count := count / arity;
    }
    ghost var l: nat := layerSkips;
    NoOffset(arity, k, layerSkips);
    PowAbove(arity, k - l);
    while count > 1
      invariant layerSkips <= l <= k && count == Pow(arity, k - l) && (count > 1 <==> l < k)
      invariant offset == Offset(arity, k, layerSkips, l) && |offsets| == l - layerSkips
      invariant forall i :: 0 <= i < |offsets| ==> offsets[i] == Offset(arity, k, layerSkips, layerSkips + i)
      decreases k - l
    {
      OffsetUp(arity, k, layerSkips, l);
      PowDown(arity, k - l);
      PowAbove(arity, k - l - 1);
      offsets := offsets + [offset];
      offset := offset + count;
      count := count / arity;
      l := l + 1;
    }
    a := TreeAddress(offsets + [offset]);
  }

  /** The table of a file over Pow(arity, k) nodes that skips its first rows. */
  ghost predicate AddressOk(a: TreeAddress, arity: nat, k: nat, skip: nat) {
    && skip <= k && |a.layerOffsets| == k - skip + 1
    && forall i :: 0 <= i < |a.layerOffsets| ==> a.layerOffsets[i] == Offset(arity, k, skip, skip + i)
  }

  /** Where one stream's part of a layer starts, per stream: a table that ends with the last layer wider
    * than the arity.
    */
  method LayerOffsets(u: Setup, nodesPerStream: nat, skip: nat) returns (table: seq<nat>)
    requires u.Ok() && skip <= u.height + 2 && nodesPerStream == PartSize(u, 0)
    ensures TableOk(u, table, skip)
  {
    hide Pow, Groups;
    var offset := nodesPerStream;
    for i := 0 to skip
      invariant 0 <= offset && (i <= u.height + 1 ==> offset == PartSize(u, i))
    {
      if i <= u.height { PartDown(u, i); }
      SlotIsMod(offset, u.arity);
      offset := offset / u.arity;
    }
    table := [];
    ghost var l: nat := skip;
    if l <= u.height + 1 { PartWide(u, l); }
    while offset >= u.arity
      invariant skip <= l && 0 <= offset && (l <= u.height + 1 ==> offset == PartSize(u, l) >= u.arity)
      invariant |table| == l - skip
      invariant forall i :: 0 <= i < |table| && skip + i <= u.height + 1 ==> table[i] == PartSize(u, skip + i)
      decreases offset
    {
      if l <= u.height { PartDown(u, l); PartWide(u, l + 1); }
      Shrinks(offset, u.arity);
      table := table + [offset];
      offset := offset / u.arity;
      l := l + 1;
    }
  }

  ghost predicate TableOk(u: Setup, table: seq<nat>, skip: nat) {
    forall l :: skip <= l <= u.height + 1 ==> l - skip < |table| && table[l - skip] == PartSize(u, l)
  }

  lemma Shrinks(x: nat, a: nat)
    requires a >= 2 && x >= a
    ensures 0 <= x / a < x
  {
    SlotIsMod(x, a);
    MulGap(a, 1, x / a);
    MulUpTo(x / a, 2, a);
  }

  /** The nodes of one stream in a row. */
  function PartSize(u: Setup, l: nat): nat
    requires l <= u.height + 1
  {
    if l == 0 then u.arity * u.group * Pow(u.arity, u.height) else u.group * Groups(u, l)
  }

  lemma PartDown(u: Setup, l: nat)
    requires u.Ok() && l <= u.height
    ensures PartSize(u, l) / u.arity == PartSize(u, l + 1)
  {
    var a := u.arity;
    if l == 0 {
      assert u.arity * u.group * Pow(a, u.height) == a * (u.group * Pow(a, u.height));
    } else {
      assert u.group * (a * Groups(u, l + 1)) == a * (u.group * Groups(u, l + 1));
    }
    EuclidUnique(PartSize(u, l), a, PartSize(u, l + 1), 0);
  }

  lemma PartWide(u: Setup, l: nat)
    requires u.Ok() && l <= u.height + 1
    ensures PartSize(u, l) >= u.arity
  {
    SlotIsMod(u.group, u.arity);
    MulUpTo(u.arity, 1, u.group / u.arity);
    if l == 0 {
      MulUpTo(u.arity, 1, u.group);
      MulUpTo(u.arity * u.group, 1, Pow(u.arity, u.height));
    } else {
      MulUpTo(u.group, 1, Groups(u, l));
    }
  }

  /** One write to a sector's file: a batch of column hashes, a group of a row, or a node of the top. */
  datatype Job = Columns(stream: nat, node: nat) | Part(stream: nat, layer: nat, node: nat) | Top(layer: nat, node: nat)

  /** The writes of one partition: one for each item of each stream's scheduler and of the CPU's. The
    * file starts at row `from`: 0 for tree C, after the discarded rows for tree R, whose first row is
    * hashed with the columns and never written.
    */
  predicate Valid(u: Setup, from: nat, j: Job) {
    match j
    case Columns(r, n) => from == 0 && r < u.streams && n < Groups(u, 1)
    case Part(r, l, n) =>
      r < u.streams && 1 <= l <= u.height + 1 && n < Groups(u, l) && from <= l && (from == 0 || l >= 2)
    case Top(l, x) => u.top >= 1 && 1 <= l <= u.top - 1 && x < Pow(u.arity, u.top - 1 - l)
  }

  function RowOf(u: Setup, j: Job): nat {
    match j
    case Columns(_, _) => 0
    case Part(_, l, _) => l
    case Top(l, _) => u.height + 1 + l
  }

  function Start(u: Setup, from: nat, j: Job): nat
    requires Valid(u, from, j)
  {
    match j
    case Columns(r, n) => BatchStart(u, r, n)
    case Part(r, l, n) => Base(u, r, l, n)
    case Top(_, x) => x
  }

  function Count(u: Setup, j: Job): nat {
    match j
    case Columns(_, _) => u.arity * u.group
    case Part(_, _, _) => u.group
    case Top(_, _) => 1
  }

  /** What the constructor computes for one tree: the file's and the CPU's tables, the streams' table, and
    * where the CPU's part of the file starts.
    */
  datatype Places = Places(skip: nat, tree: TreeAddress, table: seq<nat>, top: TreeAddress, finalOffset: int)

  ghost predicate PlacesOk(u: Setup, p: Places) {
    && u.Ok() && p.skip <= u.height + 2 && AddressOk(p.tree, u.arity, u.Levels(), p.skip)
    && TableOk(u, p.table, p.skip) && AddressOk(p.top, u.arity, u.top - 2, 0)
    && p.finalOffset == p.tree.DataSize() - p.top.DataSize()
  }

  method MakePlaces(u: Setup, nodesToRead: nat, skip: nat) returns (p: Places)
    requires u.Ok() && skip <= u.height + 2 && nodesToRead == Pow(u.arity, u.Levels())
    ensures PlacesOk(u, p) && p.skip == skip
  {
    hide Pow;
    var tree := MakeAddress(nodesToRead, u.arity, skip, u.Levels());
    CpuNodeCount(u);
    var top := MakeAddress(u.arity * u.group * u.streams / u.arity / u.arity, u.arity, 0, u.top - 2);
    StreamNodeCount(u);
    var table := LayerOffsets(u, nodesToRead / u.streams, skip);
    p := Places(skip, tree, table, top, tree.DataSize() - top.DataSize());
  }

  lemma CpuNodeCount(u: Setup)
    requires u.Ok()
    ensures 0 <= u.arity * u.group * u.streams
    ensures 0 <= u.arity * u.group * u.streams / u.arity
    ensures u.arity * u.group * u.streams / u.arity / u.arity == Pow(u.arity, u.top - 2)
  {
    hide Pow;
    TimesSwap(u.streams, 1, u.arity * u.group);
    assert u.arity * u.group * u.streams == Pow(u.arity, u.top);
    PowDown(u.arity, u.top);
    PowDown(u.arity, u.top - 1);
  }

  lemma StreamNodeCount(u: Setup)
    requires u.Ok()
    ensures Pow(u.arity, u.Levels()) / u.streams == PartSize(u, 0)
  {
    hide Groups;
    PowAdd(u.arity, u.top, u.height);
    StreamShare(u.streams, u.arity * u.group, Pow(u.arity, u.height));
    EuclidUnique(Pow(u.arity, u.Levels()), u.streams, PartSize(u, 0), 0);
  }

  lemma StreamShare(s: nat, b: nat, x: nat)
    ensures (s * b) * x == s * (b * x)
  {
  }

  /** The file offset that the pipeline computes for a write. */
  function Pos(u: Setup, p: Places, j: Job): int
    requires PlacesHave(u, p, j)
  {
    match j
    case Columns(r, n) => p.tree.Address(0, n * (u.arity * u.group) + p.table[0] * r)
    case Part(r, l, n) =>
      SlotIsMod(n * (u.arity * u.group), u.arity);
      p.tree.Address(l - p.skip, n * (u.arity * u.group) / u.arity + p.table[l - p.skip] * r)
    case Top(l, x) => p.top.Address(l - 1, x) + p.finalOffset
  }

  /** The tables have the entries that a write's offset is computed from. */
  predicate PlacesHave(u: Setup, p: Places, j: Job) {
    u.arity > 0 && match j
    case Columns(_, _) => |p.tree.layerOffsets| > 0 && |p.table| > 0
    case Part(_, l, n) => p.skip <= l && l - p.skip < |p.tree.layerOffsets| && l - p.skip < |p.table|
    case Top(l, _) => 1 <= l && l - 1 < |p.top.layerOffsets|
  }

  lemma HavePlaces(u: Setup, p: Places, j: Job)
    requires PlacesOk(u, p) && Valid(u, p.skip, j)
    ensures PlacesHave(u, p, j)
  {
    if RowOf(u, j) <= u.height + 1 {
      ghost var size := PartSize(u, RowOf(u, j));
    }
  }

  lemma {:induction false} TopOffset(u: Setup, from: nat, j: nat)
    requires u.top >= 2 && from <= u.height + 2 && j <= u.top - 1
    ensures Offset(u.arity, u.Levels(), from, u.height + 2 + j)
            == Offset(u.arity, u.Levels(), from, u.height + 2) + Offset(u.arity, u.top - 2, 0, j)
  {
    if j > 0 { TopOffset(u, from, j - 1); }
  }

  /** The computed offset is the write's place in its row. */
  lemma PosIsPlace(u: Setup, pl: Places, j: Job)
    requires PlacesOk(u, pl) && Valid(u, pl.skip, j)
    ensures RowOf(u, j) <= u.Levels() && pl.skip <= RowOf(u, j) && PlacesHave(u, pl, j)
    ensures Pos(u, pl, j) == Offset(u.arity, u.Levels(), pl.skip, RowOf(u, j)) + Start(u, pl.skip, j)
    ensures Start(u, pl.skip, j) + Count(u, j) <= Pow(u.arity, u.Levels() - RowOf(u, j))
  {
    hide Pow, Offset, Groups;
    HavePlaces(u, pl, j);
    PosFromTables(u, pl, j);
    var from := pl.skip;
    match j
    case Columns(r, n) =>
      BaseFits(u, r, 1, n);
      BatchStartIs(u, r, n);
      BatchFits(u, Base(u, r, 1, n));
    case Part(r, l, n) =>
      BaseFits(u, r, l, n);
      PartPlace(u.group, r, Groups(u, l), n);
    case Top(l, x) =>
      TopOffset(u, from, u.top - 2);
      TopOffset(u, from, l - 1);
  }

  /** The tables' entries are the rows' offsets and the streams' shares. */
  lemma PosFromTables(u: Setup, pl: Places, j: Job)
    requires PlacesOk(u, pl) && Valid(u, pl.skip, j) && PlacesHave(u, pl, j)
    ensures Pos(u, pl, j) == match j
      case Columns(r, n) => Offset(u.arity, u.Levels(), pl.skip, 0) + (n * (u.arity * u.group) + PartSize(u, 0) * r)
      case Part(r, l, n) => Offset(u.arity, u.Levels(), pl.skip, l) + (n * u.group + PartSize(u, l) * r)
      case Top(l, x) =>
        Offset(u.arity, u.Levels(), pl.skip, u.Levels()) - Offset(u.arity, u.top - 2, 0, u.top - 2)
        + Offset(u.arity, u.top - 2, 0, l - 1) + x
  {
    hide Pow, Offset, PartSize;
    if j.Part? {
      TimesSwap(j.node, u.arity, u.group);
      EuclidUnique(j.node * (u.arity * u.group), u.arity, j.node * u.group, 0);
    }
  }

  lemma BatchFits(u: Setup, base: nat)
    requires u.Ok() && base + u.group <= Pow(u.arity, u.Levels() - 1)
    ensures u.arity * base + u.arity * u.group <= Pow(u.arity, u.Levels())
  {
    PowNext(u.arity, u.Levels() - 1);
    MulUpTo(u.arity, base + u.group, Pow(u.arity, u.Levels() - 1));
    assert u.arity * (base + u.group) == u.arity * base + u.arity * u.group;
  }

  lemma PartPlace(g: nat, r: nat, w: nat, n: nat)
    ensures n * g + g * w * r == g * (r * w + n)
  {
    assert g * (r * w + n) == g * (r * w) + g * n;
    assert g * (r * w) == g * w * r;
  }

  /** A file position's row. */
  function FindRow(a: nat, k: nat, from: nat, p: nat, l: nat): (r: nat)
    requires from <= l <= k && p < Offset(a, k, from, l + 1)
    ensures from <= r <= l && Offset(a, k, from, r) <= p < Offset(a, k, from, r + 1)
    decreases l
  {
    if l == from || Offset(a, k, from, l) <= p then
      assert l == from ==> Offset(a, k, from, l) == 0;
      l
    else FindRow(a, k, from, p, l - 1)
  }

  ghost predicate Covers(u: Setup, pl: Places, j: Job, p: int) {
    Valid(u, pl.skip, j) && PlacesHave(u, pl, j) && Pos(u, pl, j) <= p < Pos(u, pl, j) + Count(u, j)
  }

  /** Which write has a node of a row. */
  function JobOf(u: Setup, l: nat, x: nat): Job
    requires u.Ok() && l <= u.Levels()
  {
    if l == 0 then
      BatchPositive(u);
      var q := Div(x, u.arity * u.group);
      Columns(Div(q, Groups(u, 1)), Slot(q, Groups(u, 1)))
    else if l <= u.height + 1 then
      var q := Div(x, u.group);
      Part(Div(q, Groups(u, l)), l, Slot(q, Groups(u, l)))
    else Top(l - u.height - 1, x)
  }

  /** Splitting a position into stream, group and rest. */
  lemma Split(x: nat, g: nat, w: nat, streams: nat)
    requires g > 0 && w > 0 && x < g * (streams * w)
    ensures
      var q := Div(x, g);
      Div(q, w) < streams && g * (Div(q, w) * w + Slot(q, w)) <= x < g * (Div(q, w) * w + Slot(q, w)) + g
  {
    var q := Div(x, g);
    QuotientBelow(x, g, streams * w);
    assert streams * w == w * streams;
    QuotientBelow(q, w, streams);
    assert Div(q, w) * w == w * Div(q, w);
  }

  lemma QuotientBelow(x: nat, g: nat, n: nat)
    requires g > 0 && x < g * n
    ensures Div(x, g) < n && x == g * Div(x, g) + Slot(x, g)
  {
    SlotIsMod(x, g);
    hide Div, Slot;
    MulGap(g, Div(x, g), n);
  }

  lemma JobInRow(u: Setup, from: nat, l: nat, x: nat)
    requires u.Ok() && from <= l <= u.Levels() && x < Pow(u.arity, u.Levels() - l) && (from == 0 || l >= 2)
    ensures
      var j := JobOf(u, l, x);
      Valid(u, from, j) && RowOf(u, j) == l && Start(u, from, j) <= x < Start(u, from, j) + Count(u, j)
  {
    hide Pow, Groups;
    if l == 0 {
      ColumnsInRow(u, x);
    } else if l <= u.height + 1 {
      RowSize(u, l);
      GroupsIs(u, l);
      Split(x, u.group, Groups(u, l), u.streams);
    } else {
      TopRow(u, l);
    }
  }

  lemma TopRow(u: Setup, l: nat)
    requires u.height + 1 < l <= u.Levels()
    ensures u.Levels() - l == u.top - 1 - (l - u.height - 1)
  {
  }

  lemma GroupsIs(u: Setup, l: nat)
    requires 1 <= l <= u.height + 1
    ensures Groups(u, l) == Pow(u.arity, u.height + 1 - l)
  {
  }

  lemma ColumnsInRow(u: Setup, x: nat)
    requires u.Ok() && x < Pow(u.arity, u.Levels())
    ensures
      var j := JobOf(u, 0, x);
      Valid(u, 0, j) && RowOf(u, j) == 0 && Start(u, 0, j) <= x < Start(u, 0, j) + Count(u, j)
  {
    RowSize(u, 1);
    BatchPositive(u);
    PowNext(u.arity, u.Levels() - 1);
    GroupsIs(u, 1);
    hide Pow, Groups;
    var w := Groups(u, 1);
    BatchSplit(u.arity, u.group, u.streams * w);
    Split(x, u.arity * u.group, w, u.streams);
    var q := Div(x, u.arity * u.group);
    BatchStartIs(u, Div(q, w), Slot(q, w));
    BatchSplit(u.arity, u.group, Div(q, w) * w + Slot(q, w));
  }

  lemma BatchSplit(a: nat, g: nat, y: nat)
    ensures a * (g * y) == (a * g) * y
  {
  }

  /** Every position of a file is written, unless the file starts at row 1. */
  lemma Covered(u: Setup, pl: Places, p: nat)
    requires PlacesOk(u, pl) && pl.skip != 1 && p < Offset(u.arity, u.Levels(), pl.skip, u.Levels() + 1)
    ensures
      var l := FindRow(u.arity, u.Levels(), pl.skip, p, u.Levels());
      && p >= Offset(u.arity, u.Levels(), pl.skip, l)
      && Covers(u, pl, JobOf(u, l, p - Offset(u.arity, u.Levels(), pl.skip, l)), p)
  {
    hide Pow, JobOf, Valid, Start, Pos;
    var l := FindRow(u.arity, u.Levels(), pl.skip, p, u.Levels());
    OffsetUp(u.arity, u.Levels(), pl.skip, l);
    var x := p - Offset(u.arity, u.Levels(), pl.skip, l);
    JobInRow(u, pl.skip, l, x);
    PosIsPlace(u, pl, JobOf(u, l, x));
  }

  /** Nothing would write the first row of a tree R that discards none. */
  lemma FirstRowUnwritten(u: Setup, pl: Places, j: Job, p: nat)
    requires PlacesOk(u, pl) && pl.skip == 1 && p < Pow(u.arity, u.Levels() - 1)
    ensures !Covers(u, pl, j, p)
  {
    hide Pos;
    OffsetUp(u.arity, u.Levels(), 1, 1);
    NoOffset(u.arity, u.Levels(), 1);
    if Covers(u, pl, j, p) {
      PosIsPlace(u, pl, j);
      OffsetGrows(u.arity, u.Levels(), 1, 2, RowOf(u, j));
    }
  }

  /** No position is written twice. */
  lemma WrittenOnce(u: Setup, pl: Places, i: Job, j: Job, p: int)
    requires PlacesOk(u, pl) && Covers(u, pl, i, p) && Covers(u, pl, j, p)
    ensures i == j
  {
    hide Pow, Offset, Groups, Pos, Base, BatchStart;
    var from := pl.skip;
    PosIsPlace(u, pl, i);
    PosIsPlace(u, pl, j);
    OffsetUp(u.arity, u.Levels(), from, RowOf(u, i));
    OffsetUp(u.arity, u.Levels(), from, RowOf(u, j));
    if RowOf(u, i) < RowOf(u, j) {
      OffsetGrows(u.arity, u.Levels(), from, RowOf(u, i) + 1, RowOf(u, j));
    } else if RowOf(u, j) < RowOf(u, i) {
      OffsetGrows(u.arity, u.Levels(), from, RowOf(u, j) + 1, RowOf(u, i));
    }
    var x := p - Offset(u.arity, u.Levels(), from, RowOf(u, i));
    match i
    case Columns(r, n) =>
      BatchStartIs(u, r, n);
      BatchStartIs(u, j.stream, j.node);
      BatchPositive(u);
      BatchGroup(u, r, n);
      BatchGroup(u, j.stream, j.node);
      SamePart(u.arity * u.group, Groups(u, 1), r, n, j.stream, j.node, x);
    case Part(r, l, n) =>
      PartIs(u, r, l, n);
      PartIs(u, j.stream, l, j.node);
      SamePart(u.group, Groups(u, l), r, n, j.stream, j.node, x);
    case Top(l, y) =>
  }

  lemma PartIs(u: Setup, r: nat, l: nat, n: nat)
    requires 1 <= l <= u.height + 1
    ensures Base(u, r, l, n) == u.group * (r * Groups(u, l) + n)
  {
  }

  lemma BatchGroup(u: Setup, r: nat, n: nat)
    ensures u.arity * Base(u, r, 1, n) == (u.arity * u.group) * (r * Groups(u, 1) + n)
  {
    BatchSplit(u.arity, u.group, r * Groups(u, 1) + n);
  }

  lemma SamePart(g: nat, w: nat, r: nat, n: nat, r': nat, n': nat, x: int)
    requires g > 0 && n < w && n' < w
    requires g * (r * w + n) <= x < g * (r * w + n) + g && g * (r' * w + n') <= x < g * (r' * w + n') + g
    ensures r == r' && n == n'
  {
    MulGap(g, r * w + n, r' * w + n');
    assert r * w == w * r && r' * w == w * r';
    MulGap(w, r, r');
  }
}
