/** What the log of a whole partition amounts to: the files that the CPU builders would have stored. */
module Pc2Result {
  import opened RingMath
  import opened TreeRows
  import opened Pc2Tree
  import opened Pc2Planner
  import opened Pc2Blocks
  import opened Pc2Places
  import opened Pc2Writes
  import opened Pc2Streams
  import opened Pc2Steps
  import opened Pc2Leaves
  import opened Pc2Cpu
  import opened Pc2Logs

  /** A stream has sent what a whole reduction of its tree leads to, and nothing else. */
  ghost predicate StreamDone(c: Config, p: nat, r: nat, log: seq<Write>)
    requires c.u.Ok() && c.layers > 0
  {
    exists trace :: AllNodes(Shape(c.u), trace) && From(c.u, log, p, r) == Expected(c, p, r, trace)
  }

  /** What the CPU sends for a partition. */
  function CpuLog(c: Config, p: nat, inputC: seq<int>, inputR: seq<int>, traceC: seq<NodeId>,
                  traceR: seq<NodeId>): seq<Write>
    requires c.u.Ok() && c.layers > 0
  {
    (if c.treeROnly then [] else CpuWrites(c, p, TreeC, inputC, traceC)) + CpuWrites(c, p, TreeR, inputR, traceR)
  }

  ghost predicate CpuDone(c: Config, p: nat, log: seq<Write>, inputC: seq<int>, inputR: seq<int>)
    requires c.u.Ok() && c.layers > 0
  {
    exists traceC, traceR ::
      && (!c.treeROnly ==> AllNodes(AllSectors(c.u, c.f, inputC), traceC))
      && AllNodes(AllSectors(c.u, c.f, inputR), traceR)
      && From(c.u, log, p, c.u.streams) == CpuLog(c, p, inputC, inputR, traceC, traceR)
  }

  /** All streams and the CPU are done with a partition. */
  ghost predicate PartDone(c: Config, p: nat, log: seq<Write>, inputC: seq<int>, inputR: seq<int>)
    requires c.u.Ok() && c.layers > 0
  {
    && (forall w :: w in log ==> Sender(c.u, w.job) <= c.u.streams)
    && (forall r: nat :: r < c.u.streams ==> StreamDone(c, p, r, log))
    && CpuDone(c, p, log, inputC, inputR)
  }

  function InputOf(kind: Kind, inputC: seq<int>, inputR: seq<int>): seq<int> {
    if kind == TreeC then inputC else inputR
  }

  ghost predicate InShape(c: Config, trace: seq<NodeId>)
    requires c.u.Ok()
  {
    forall id :: id in trace ==> 1 <= id.layer <= c.u.height + 1 && 0 <= id.node < Groups(c.u, id.layer)
  }

  lemma ShapeTrace(c: Config, trace: seq<NodeId>)
    requires c.u.Ok() && AllNodes(Shape(c.u), trace)
    ensures InShape(c, trace) && InTree(trace)
    ensures forall id: NodeId :: id.layer >= 1 && id.layer <= c.u.height + 1 && 0 <= id.node < Groups(c.u, id.layer) ==>
      Seen(trace, id) == 1
  {
    forall id | id in trace ensures 1 <= id.layer <= c.u.height + 1 && 0 <= id.node < Groups(c.u, id.layer) {
      assert Width(Shape(c.u), id.layer) == Groups(c.u, id.layer);
    }
    forall id: NodeId | id.layer >= 1 && id.layer <= c.u.height + 1 && 0 <= id.node < Groups(c.u, id.layer)
      ensures Seen(trace, id) == 1
    {
      assert Width(Shape(c.u), id.layer) == Groups(c.u, id.layer);
      assert id in trace;
      SeenOnce(trace, id);
    }
  }

  ghost predicate IsTheWrite(c: Config, p: nat, w: Write)
    requires c.u.Ok() && c.layers > 0
  {
    Wanted(c, w.kind, w.job) && w == TheWrite(c, p, w.kind, w.job) && w.part == p
  }

  lemma WritesAre(c: Config, p: nat, r: nat, id: NodeId, w: Write)
    requires c.Ok() && r < c.u.streams && 1 <= id.layer <= c.u.height + 1 && 0 <= id.node < Groups(c.u, id.layer)
    requires w in WritesOf(c, p, r, id)
    ensures IsTheWrite(c, p, w)
  {
    hide PlacesOk, Groups, Pos, Block, RunOf;
    PartWanted(c, p, TreeC, r, id);
    if id.layer > 1 && id.layer > c.discards {
      PartWanted(c, p, TreeR, r, id);
    }
    if id.layer == 1 && !c.treeROnly {
      ColumnsWanted(c, p, r, id.node);
    }
  }

  lemma {:induction false} ExpectedAre(c: Config, p: nat, r: nat, trace: seq<NodeId>, w: Write)
    requires c.Ok() && r < c.u.streams && InShape(c, trace) && w in Expected(c, p, r, trace)
    ensures IsTheWrite(c, p, w)
  {
    hide WritesOf, IsTheWrite, PlacesOk, Groups;
    var n := |trace| - 1;
    assert trace[n] in trace;
    if w in Expected(c, p, r, trace[..n]) {
      ExpectedAre(c, p, r, trace[..n], w);
    } else {
      WritesAre(c, p, r, trace[n], w);
    }
  }

  /** The CPU's input plays no part in what the streams write. */
  lemma SameBlock(c: Config, p: nat, kind: Kind, input: seq<int>, j: Job)
    requires c.Ok() && Wanted(c, kind, j)
    ensures PlacesHave(c.u, c.PlacesOf(kind), j)
    ensures !j.Top? ==>
      Intended(c.u, c.PlacesOf(kind), c.f, RunOf(c, p, kind, input), p, kind, j) == TheWrite(c, p, kind, j)
    ensures Intended(c.u, c.PlacesOf(kind), c.f, RunOf(c, p, kind, input), p, kind, j)
            == WriteFrom(c, p, kind, input, j)
  {
    hide Pos, Merkle;
    HavePlaces(c.u, c.PlacesOf(kind), j);
  }

  lemma CpuWriteIs(c: Config, p: nat, kind: Kind, input: seq<int>, trace: seq<NodeId>, w: Write)
    requires c.Ok() && AllNodes(AllSectors(c.u, c.f, input), trace) && w in CpuWrites(c, p, kind, input, trace)
    requires kind == TreeC ==> !c.treeROnly
    ensures Wanted(c, kind, w.job) && w == WriteFrom(c, p, kind, input, w.job) && w.part == p && w.kind == kind
  {
    hide Merkle, RunOf, Block, Pos, PlacesOk;
    var i :| 0 <= i < |trace| && CpuWrites(c, p, kind, input, trace)[i] == w;
    TopPlace(c, p, kind, input, AllSectors(c.u, c.f, input), trace, i);
  }

  /** Whatever the log has for a file is intended. */
  lemma OnlyIntended(c: Config, p: nat, log: seq<Write>, inputC: seq<int>, inputR: seq<int>, w: Write)
    requires c.Ok() && PartDone(c, p, log, inputC, inputR) && w in log && w.part == p
    requires w.kind == TreeC ==> !c.treeROnly
    ensures IsIntended(c.u, c.PlacesOf(w.kind), c.f, RunOf(c, p, w.kind, InputOf(w.kind, inputC, inputR)), w)
  {
    hide AllNodes, From, Expected, CpuWrites, WriteFrom, TheWrite, Intended, PlacesOk, RunOf, AllSectors, Shape;
    var k := Sender(c.u, w.job);
    FromHas(c.u, log, p, k, w);
    if k < c.u.streams {
      assert StreamDone(c, p, k, log);
      var trace :| AllNodes(Shape(c.u), trace) && From(c.u, log, p, k) == Expected(c, p, k, trace);
      ShapeTrace(c, trace);
      ExpectedAre(c, p, k, trace, w);
      SameBlock(c, p, w.kind, InputOf(w.kind, inputC, inputR), w.job);
    } else {
      var traceC, traceR :|
        && (!c.treeROnly ==> AllNodes(AllSectors(c.u, c.f, inputC), traceC))
      && AllNodes(AllSectors(c.u, c.f, inputR), traceR)
        && From(c.u, log, p, c.u.streams) == CpuLog(c, p, inputC, inputR, traceC, traceR);
      if w in CpuWrites(c, p, TreeR, inputR, traceR) {
        CpuWriteIs(c, p, TreeR, inputR, traceR, w);
        SameBlock(c, p, TreeR, inputR, w.job);
      } else {
        CpuWriteIs(c, p, TreeC, inputC, traceC, w);
        SameBlock(c, p, TreeC, inputC, w.job);
      }
    }
  }

  /** A job of a stream is in the log once. */
  lemma StreamOnce(c: Config, p: nat, kind: Kind, log: seq<Write>, j: Job)
    requires c.Ok() && Wanted(c, kind, j) && !j.Top? && StreamDone(c, p, j.stream, log)
    ensures Times(log, p, kind, j) == 1
  {
    hide PlacesOk, Expected, From, Times, AllNodes;
    TimesFrom(c.u, log, p, kind, j);
    var trace :| AllNodes(Shape(c.u), trace) && From(c.u, log, p, j.stream) == Expected(c, p, j.stream, trace);
    ShapeTrace(c, trace);
    ExpectedTimes(c, p, kind, j.stream, trace, j);
  }

  lemma TopSeen(c: Config, input: seq<int>, trace: seq<NodeId>, l: nat, x: nat)
    requires c.u.Ok() && AllNodes(AllSectors(c.u, c.f, input), trace)
    requires 1 <= l <= c.u.top - 1 && x < Pow(c.u.arity, c.u.top - 1 - l)
    ensures InTree(trace) && Seen(trace, NodeId(l, x)) == 1
  {
    assert NodeId(l, x) in trace;
    SeenOnce(trace, NodeId(l, x));
  }

  /** A node of the CPU's part is in the log once. */
  lemma TopOnce(c: Config, p: nat, kind: Kind, log: seq<Write>, inputC: seq<int>, inputR: seq<int>, l: nat, x: nat)
    requires c.Ok() && Wanted(c, kind, Top(l, x)) && CpuDone(c, p, log, inputC, inputR)
    ensures Times(log, p, kind, Top(l, x)) == 1
  {
    hide PlacesOk, From, Times, AllNodes, CpuWrites, AllSectors;
    TimesFrom(c.u, log, p, kind, Top(l, x));
    var traceC, traceR :|
      && (!c.treeROnly ==> AllNodes(AllSectors(c.u, c.f, inputC), traceC))
      && AllNodes(AllSectors(c.u, c.f, inputR), traceR)
      && From(c.u, log, p, c.u.streams) == CpuLog(c, p, inputC, inputR, traceC, traceR);
    var ws := CpuWrites(c, p, TreeR, inputR, traceR);
    TopSeen(c, inputR, traceR, l, x);
    CpuTimes(c, p, TreeR, inputR, traceR, kind, l, x);
    if !c.treeROnly {
      TopSeen(c, inputC, traceC, l, x);
      CpuTimes(c, p, TreeC, inputC, traceC, kind, l, x);
    }
    NoTimes(p, kind, Top(l, x));
    TimesBoth(if c.treeROnly then [] else CpuWrites(c, p, TreeC, inputC, traceC), ws, p, kind, Top(l, x));
  }

  lemma NoTimes(p: nat, kind: Kind, j: Job)
    ensures Times([], p, kind, j) == 0
  {
  }

  /** Main result: when the streams and the CPU are done with a partition, every node of each of its files is
    * written exactly once, at its place and with its digest.
    */
  lemma PartComplete(c: Config, p: nat, kind: Kind, log: seq<Write>, inputC: seq<int>, inputR: seq<int>)
    requires c.Ok() && PartDone(c, p, log, inputC, inputR) && (kind == TreeC ==> !c.treeROnly)
    ensures Complete(c.u, c.PlacesOf(kind), c.f, RunOf(c, p, kind, InputOf(kind, inputC, inputR)), p, kind, log)
  {
    hide PlacesOk, Times, IsIntended, StreamDone, CpuDone, RunOf;
    forall w | w in log && w.part == p && w.kind == kind
      ensures IsIntended(c.u, c.PlacesOf(kind), c.f, RunOf(c, p, kind, InputOf(kind, inputC, inputR)), w)
    {
      OnlyIntended(c, p, log, inputC, inputR, w);
    }
    forall j | Valid(c.u, c.PlacesOf(kind).skip, j) ensures Times(log, p, kind, j) == 1 {
      if j.Top? {
        TopOnce(c, p, kind, log, inputC, inputR, j.layer, j.node);
      } else {
        StreamOnce(c, p, kind, log, j);
      }
    }
  }

  /** The reader delivers the labels of the layers and nodes it is asked for. */
  ghost predicate ReaderOk(c: Config, labels: (nat, nat, nat) -> int) {
    forall l: nat, start: nat, n: nat :: DeliveredOk(c, labels, l, start, n)
  }

  ghost predicate DeliveredOk(c: Config, labels: (nat, nat, nat) -> int, l: nat, start: nat, n: nat) {
    Loaded(c.load(l, start, n), (i: nat, x: nat, s: nat) => labels(l + i, x, s), n, c.u.arity * c.u.group, c.u.sectors,
           start)
  }

  /** The labels of the sealed sectors: the last layer, encoded where there is data. */
  function SealedLabels(c: Config, labels: (nat, nat, nat) -> int): (nat, nat, nat) -> int
    requires c.layers > 0
  {
    (i: nat, x: nat, s: nat) => if c.layers > 0 then Sealed(c, s, x, labels(c.layers - 1, x, s)) else 0
  }

  /** The leaves of a tree over one partition's labels. */
  function RowsOf(c: Config, p: nat, kind: Kind, labels: (nat, nat, nat) -> int): seq<seq<int>>
    requires c.layers > 0
  {
    if kind == TreeC then ColumnRows(c.u, c.colHash, c.layers, labels, First(c, p))
    else ColumnRows(c.u, SINGLE, 1, SealedLabels(c, labels), First(c, p))
  }

  /** Leaf x of partition p of a sector is node p * arity^levels + x: tree C has its hashed column, from layer 0
    * to the last, and tree R its last label, with the data added where the sector has any.
    */
  lemma LeavesAre(c: Config, p: nat, labels: (nat, nat, nat) -> int, s: nat, x: nat, node: nat)
    requires c.u.Ok() && c.layers > 0 && s < c.u.sectors && x < Pow(c.u.arity, c.u.Levels())
    requires node == p * Pow(c.u.arity, c.u.Levels()) + x
    ensures LeafIs(RowsOf(c, p, TreeC, labels), s, x, c.colHash(Column(labels, c.layers, node, s)))
    ensures
      var last := labels(c.layers - 1, node, s);
      LeafIs(RowsOf(c, p, TreeR, labels), s, x, if c.hasData(s) then c.add(last, c.data(s, node)) else last)
  {
    hide *;
    var first := First(c, p);
    FirstNode(c, p, x, node);
    RowLeaf(c.u, c.colHash, c.layers, labels, first, s, x);
    RowLeaf(c.u, SINGLE, 1, SealedLabels(c, labels), first, s, x);
    SealedLeaf(c, labels, node, s);
    RowsAre(c, p, labels);
  }

  lemma FirstNode(c: Config, p: nat, x: nat, node: nat)
    requires node == p * Pow(c.u.arity, c.u.Levels()) + x
    ensures node == First(c, p) + x
  {
    hide Pow;
  }

  lemma RowsAre(c: Config, p: nat, labels: (nat, nat, nat) -> int)
    requires c.layers > 0
    ensures RowsOf(c, p, TreeC, labels) == ColumnRows(c.u, c.colHash, c.layers, labels, First(c, p))
    ensures RowsOf(c, p, TreeR, labels) == ColumnRows(c.u, SINGLE, 1, SealedLabels(c, labels), First(c, p))
  {
    hide ColumnRows, First, SealedLabels;
  }

  lemma SealedLeaf(c: Config, labels: (nat, nat, nat) -> int, node: nat, s: nat)
    requires c.layers > 0
    ensures
      var last := labels(c.layers - 1, node, s);
      SINGLE(Column(SealedLabels(c, labels), 1, node, s)) == if c.hasData(s) then c.add(last, c.data(s, node)) else last
  {
    var column := Column(SealedLabels(c, labels), 1, node, s);
    assert column[0] == SealedLabels(c, labels)(0, node, s);
  }

  /** A sector's row has this leaf at this place. */
  ghost predicate LeafIs(rows: seq<seq<int>>, s: nat, x: nat, leaf: int) {
    s < |rows| && x < |rows[s]| && rows[s][x] == leaf
  }

  /** A node's labels, layer by layer. */
  function Column(labels: (nat, nat, nat) -> int, layers: nat, node: nat, s: nat): (r: seq<int>)
    ensures |r| == layers && forall i :: 0 <= i < layers ==> r[i] == labels(i, node, s)
  {
    seq(layers, i requires 0 <= i < layers => labels(i, node, s))
  }

  lemma RowLeaf(u: Setup, colHash: seq<int> -> int, layers: nat, labels: (nat, nat, nat) -> int, first: nat, s: nat,
                x: nat)
    requires s < u.sectors && x < Pow(u.arity, u.Levels())
    ensures LeafIs(ColumnRows(u, colHash, layers, labels, first), s, x, colHash(Column(labels, layers, first + x, s)))
  {
    hide Pow;
    var row := ColumnRow(u, colHash, layers, labels, first, s);
    assert seq(layers, i requires 0 <= i < layers => labels(i, first + x, s)) == Column(labels, layers, first + x, s);
    assert row[x] == colHash(Column(labels, layers, first + x, s));
  }

  lemma LoadedC(c: Config, p: nat, labels: (nat, nat, nat) -> int)
    requires c.Ok() && ReaderOk(c, labels) && !c.treeROnly
    ensures AllLoaded(c.u, labels, c.layers, First(c, p), DataC(c, p))
  {
    hide PlacesOk, Loading, BatchStart, First, Groups;
    forall r: nat, n: nat | r < c.u.streams && n < Groups(c.u, 1)
      ensures Loaded(DataC(c, p)(r, n), labels, c.layers, c.u.arity * c.u.group, c.u.sectors,
                     First(c, p) + BatchStart(c.u, r, n))
    {
      assert DeliveredOk(c, labels, 0, StartNode(c, p, r, n), c.layers);
    }
  }

  /** Where an element of the last layer is in the buffer of all layers. */
  lemma LastPlace(layers: nat, batch: nat, sectors: nat, k: nat, s: nat)
    requires layers > 0
    ensures ((layers - 1) * batch + k) * sectors + s == (layers - 1) * (sectors * batch) + (k * sectors + s)
    ensures 0 <= (layers - 1) * (sectors * batch)
  {
    var m := layers - 1;
    assert (m * batch + k) * sectors == m * batch * sectors + k * sectors;
    assert m * batch * sectors == m * (batch * sectors) == m * (sectors * batch);
    MulNat(m, sectors * batch);
  }

  /** The last layer in the host's buffer. */
  lemma LastLayerAt(c: Config, labels: (nat, nat, nat) -> int, start: nat, k: nat, s: nat)
    requires c.Ok() && ReaderOk(c, labels) && k < c.u.arity * c.u.group && s < c.u.sectors
    ensures 0 <= k * c.u.sectors + s < c.LayerSize()
    ensures Element(LastLayer(c, Batch(c, start)), k * c.u.sectors + s) == labels(c.layers - 1, start + k, s)
  {
    hide PlacesOk;
    var batch, at := c.u.arity * c.u.group, k * c.u.sectors + s;
    InBlock(batch, c.u.sectors, k, s);
    assert batch * c.u.sectors == c.LayerSize();
    BatchSize(c, start);
    if c.treeROnly {
      assert DeliveredOk(c, labels, c.layers - 1, start, 1);
      assert Loading(Batch(c, start), 0, k, s, batch, c.u.sectors) == labels(c.layers - 1, start + k, s);
    } else {
      assert DeliveredOk(c, labels, 0, start, c.layers);
      OneLayer(c.layers, c.LayerSize());
      LastPlace(c.layers, batch, c.u.sectors, k, s);
      LastLoading(c, labels, start, batch, k, s);
      TailAt(c, Batch(c, start), at);
    }
  }

  lemma LastLoading(c: Config, labels: (nat, nat, nat) -> int, start: nat, batch: nat, k: nat, s: nat)
    requires c.layers > 0 && !c.treeROnly && DeliveredOk(c, labels, 0, start, c.layers)
    requires batch == c.u.arity * c.u.group && k < batch && s < c.u.sectors
    ensures Loading(Batch(c, start), c.layers - 1, k, s, batch, c.u.sectors) == labels(c.layers - 1, start + k, s)
  {
    hide Loading;
  }

  lemma TailAt(c: Config, column: seq<int>, at: nat)
    requires c.layers > 0 && !c.treeROnly && at < c.LayerSize() && |column| == c.layers * c.LayerSize()
    requires 0 <= (c.layers - 1) * c.LayerSize()
    requires c.layers * c.LayerSize() == (c.layers - 1) * c.LayerSize() + c.LayerSize()
    ensures Element(LastLayer(c, column), at) == Element(column, (c.layers - 1) * c.LayerSize() + at)
  {
  }

  lemma LoadedR(c: Config, p: nat, labels: (nat, nat, nat) -> int)
    requires c.Ok() && ReaderOk(c, labels)
    ensures AllLoaded(c.u, SealedLabels(c, labels), 1, First(c, p), DataR(c, p))
  {
    hide PlacesOk, Loading, BatchStart, First, Groups, ReplicaOf, SealedLabels, Loaded, ReaderOk, DataR;
    forall r: nat, n: nat | r < c.u.streams && n < Groups(c.u, 1)
      ensures Loaded(DataR(c, p)(r, n), SealedLabels(c, labels), 1, c.u.arity * c.u.group, c.u.sectors,
                     First(c, p) + BatchStart(c.u, r, n))
    {
      DataRIs(c, p, r, n);
      ReplicaLoaded(c, labels, StartNode(c, p, r, n), c.u.arity * c.u.group);
    }
  }

  lemma DataRIs(c: Config, p: nat, r: nat, n: nat)
    requires c.u.Ok() && c.layers > 0
    ensures DataR(c, p)(r, n) == ReplicaOf(c, StartNode(c, p, r, n))
  {
  }

  lemma ReplicaLoaded(c: Config, labels: (nat, nat, nat) -> int, start: nat, batch: nat)
    requires c.Ok() && ReaderOk(c, labels) && batch == c.u.arity * c.u.group
    ensures Loaded(ReplicaOf(c, start), SealedLabels(c, labels), 1, batch, c.u.sectors, start)
  {
    hide ReaderOk, PlacesOk, Loading, ReplicaOf, SealedLabels, Sealed;
    forall i, k, s | 0 <= i < 1 && 0 <= k < batch && 0 <= s < c.u.sectors
      ensures Loading(ReplicaOf(c, start), i, k, s, batch, c.u.sectors) == SealedLabels(c, labels)(i, start + k, s)
    {
      ReplicaAt(c, labels, start, batch, k, s);
      SealedAt(c, labels, i, start + k, s);
    }
  }

  lemma SealedAt(c: Config, labels: (nat, nat, nat) -> int, i: nat, x: nat, s: nat)
    requires c.layers > 0
    ensures SealedLabels(c, labels)(i, x, s) == Sealed(c, s, x, labels(c.layers - 1, x, s))
  {
  }

  lemma ReplicaAt(c: Config, labels: (nat, nat, nat) -> int, start: nat, batch: nat, k: nat, s: nat)
    requires c.Ok() && ReaderOk(c, labels) && batch == c.u.arity * c.u.group && k < batch && s < c.u.sectors
    ensures Loading(ReplicaOf(c, start), 0, k, s, batch, c.u.sectors)
            == Sealed(c, s, start + k, labels(c.layers - 1, start + k, s))
  {
    hide ReaderOk, LastLayer, PlacesOk, Batch, Slot, Div;
    LastLayerAt(c, labels, start, k, s);
    var at := k * c.u.sectors + s;
    ElementPlace(c.u.sectors, k, s, at);
    ReplicaElement(c, LastLayer(c, Batch(c, start)), start, at, k, s);
    assert (0 * batch + k) * c.u.sectors + s == at;
  }

  lemma ElementPlace(sectors: nat, k: nat, s: nat, at: nat)
    requires s < sectors && at == k * sectors + s
    ensures Slot(at, sectors) == s && Div(at, sectors) == k
  {
    assert k * sectors == sectors * k;
    EuclidUnique(at, sectors, k, s);
    SlotIsMod(at, sectors);
  }

  lemma ReplicaElement(c: Config, layer: seq<int>, start: nat, at: nat, k: nat, s: nat)
    requires s < c.u.sectors && at < c.LayerSize() && Slot(at, c.u.sectors) == s && Div(at, c.u.sectors) == k
    ensures Element(Replica(c, layer, start), at) == Sealed(c, s, start + k, Element(layer, at))
  {
    hide Slot, Div;
  }

  /** The results that the CPU works on are the streams' roots. */
  ghost predicate InputsOk(c: Config, p: nat, inputC: seq<int>, inputR: seq<int>)
    requires c.u.Ok() && c.layers > 0
  {
    && RootsIn(c.u, c.f, RunOf(c, p, TreeR, inputR))
    && (!c.treeROnly ==> RootsIn(c.u, c.f, RunOf(c, p, TreeC, inputC)))
  }

  lemma RunIsOk(c: Config, p: nat, kind: Kind, labels: (nat, nat, nat) -> int, inputC: seq<int>, inputR: seq<int>)
    requires c.Ok() && ReaderOk(c, labels) && InputsOk(c, p, inputC, inputR) && (kind == TreeC ==> !c.treeROnly)
    ensures RunOk(c.u, c.f, RowsOf(c, p, kind, labels), c.PlacesOf(kind).skip,
                  RunOf(c, p, kind, InputOf(kind, inputC, inputR)))
  {
    hide RunOk, RootsIn, ReaderOk, PlacesOk, RowsOf, RunOf;
    if kind == TreeC { RunCIsOk(c, p, labels, inputC); } else { RunRIsOk(c, p, labels, inputR); }
  }

  lemma RunCIsOk(c: Config, p: nat, labels: (nat, nat, nat) -> int, input: seq<int>)
    requires c.Ok() && ReaderOk(c, labels) && !c.treeROnly && RootsIn(c.u, c.f, RunOf(c, p, TreeC, input))
    ensures RunOk(c.u, c.f, RowsOf(c, p, TreeC, labels), c.c.skip, RunOf(c, p, TreeC, input))
  {
    hide RunOk, RootsIn, AllLoaded, ReaderOk, PlacesOk, DataC, First, TreeCRun, ColumnRows;
    LoadedC(c, p, labels);
    TreeCRunOk(c.u, c.f, c.colHash, c.layers, labels, First(c, p), DataC(c, p), input);
  }

  lemma RunRIsOk(c: Config, p: nat, labels: (nat, nat, nat) -> int, input: seq<int>)
    requires c.Ok() && ReaderOk(c, labels) && RootsIn(c.u, c.f, RunOf(c, p, TreeR, input))
    ensures RunOk(c.u, c.f, RowsOf(c, p, TreeR, labels), c.r.skip, RunOf(c, p, TreeR, input))
  {
    hide RunOk, RootsIn, AllLoaded, ReaderOk, PlacesOk, DataR, First, TreeRRun, ColumnRows, SealedLabels;
    LoadedR(c, p, labels);
    TreeRRunOk(c.u, c.f, SealedLabels(c, labels), First(c, p), DataR(c, p), input, c.r.skip);
  }

  /** Main result: a partition's writes, in whatever order they reach the disk, leave in every sector's file
    * just what the CPU builder stores for its tree.
    */
  lemma FilesRight(c: Config, p: nat, kind: Kind, labels: (nat, nat, nat) -> int, log: seq<Write>, order: seq<Write>,
                   inputC: seq<int>, inputR: seq<int>, s: nat, file: seq<int>)
    requires c.Ok() && ReaderOk(c, labels) && PartDone(c, p, log, inputC, inputR) && InputsOk(c, p, inputC, inputR)
    requires if kind == TreeC then !c.treeROnly else c.discards > 0
    requires s < c.u.sectors && multiset(order) == multiset(log) && FileSize(c, kind, |file|)
    ensures IsFile(c, RowsOf(c, p, kind, labels), kind, s, PutAll(c.u, p, kind, s, file, order))
  {
    hide RunOk, RootsIn, AllLoaded, ReaderOk, PlacesOk, PartDone, RunOf, Complete, Stored, Offset, PutAll, RowsOf, Pow;
    PartComplete(c, p, kind, log, inputC, inputR);
    RunIsOk(c, p, kind, labels, inputC, inputR);
    SkipFits(c, kind);
    var run := RunOf(c, p, kind, InputOf(kind, inputC, inputR));
    RowsOfRun(c.u, c.f, RowsOf(c, p, kind, labels), c.PlacesOf(kind).skip, run);
    FileComplete(c.u, c.f, RowsOf(c, p, kind, labels), c.PlacesOf(kind), run, p, kind, s, file, log, order);
  }

  /** A file is allocated for the rows from its first one up. */
  ghost predicate FileSize(c: Config, kind: Kind, size: nat) {
    var skip := c.PlacesOf(kind).skip;
    skip <= c.u.Levels() + 1 && size == Offset(c.u.arity, c.u.Levels(), skip, c.u.Levels() + 1)
  }

  /** A file with the rows that the CPU builder stores for a sector. */
  ghost predicate IsFile(c: Config, rows: seq<seq<int>>, kind: Kind, s: nat, file: seq<int>) {
    && s < |rows| && |rows[s]| == Pow(c.u.arity, c.u.Levels())
    && file == Stored(c.f, c.u.arity, rows[s], c.u.Levels(), c.PlacesOf(kind).skip, c.u.Levels())
  }

  lemma SkipFits(c: Config, kind: Kind)
    requires c.Ok()
    ensures c.PlacesOf(kind).skip <= c.u.Levels() && PlacesOk(c.u, c.PlacesOf(kind))
    ensures c.PlacesOf(kind).skip == if kind == TreeC then 0 else c.discards + 1
  {
  }

  lemma {:induction false} Untouched(u: Setup, part: nat, kind: Kind, s: nat, file: seq<int>, log: seq<Write>, p: nat)
    requires p < |file|
    requires forall w :: w in log && w.part == part && w.kind == kind ==> !(w.pos <= p < w.pos + Count(u, w.job))
    ensures PutAll(u, part, kind, s, file, log)[p] == file[p]
  {
    hide Share, Count;
    if log != [] { Untouched(u, part, kind, s, file, log[..|log| - 1], p); }
  }

  /** The other half of `FilesRight`: without discarded rows, tree R's file would start at row one, and that row
    * is what it was before the run.
    */
  lemma FirstRowKept(c: Config, p: nat, log: seq<Write>, order: seq<Write>, inputC: seq<int>, inputR: seq<int>, s: nat,
                     file: seq<int>, x: nat)
    requires c.Ok() && PartDone(c, p, log, inputC, inputR) && c.discards == 0
    requires multiset(order) == multiset(log) && x < |file| && x < Pow(c.u.arity, c.u.Levels() - 1)
    ensures PutAll(c.u, p, TreeR, s, file, order)[x] == file[x]
  {
    hide PlacesOk, PartDone, PutAll, RunOf, Block, Pos, Pow;
    SkipFits(c, TreeR);
    forall w | w in order && w.part == p && w.kind == TreeR
      ensures !(w.pos <= x < w.pos + Count(c.u, w.job))
    {
      assert w in multiset(order);
      OnlyIntended(c, p, log, inputC, inputR, w);
      FirstRowUnwritten(c.u, c.r, w.job, x);
    }
    Untouched(c.u, p, TreeR, s, file, order, x);
  }
}
