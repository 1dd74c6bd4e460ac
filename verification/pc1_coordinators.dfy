/** The coordinator's steps: what it copies is right, and its steps keep the invariant. */
module Pc1Coordinators {
  import opened RingMath
  import opened Pc1Graph
  import opened Pc1Machine
  import opened Pc1Invariant
  import opened Pc1Hashers

  /** The valid count of a parent entry vouches for everything in it. */
  lemma CopyReady(c: Config, s: State, k: nat)
    requires Wf(c) && Shape(c, s) && CanCopy(c, s, k)
    requires OrchOk(c, s.orch) && EntriesOk(c, s.orch, s.parents) && ScanOk(c, s.orch, s.coords)
    requires CoordOk(c, s.orch.issued, s.coords[k])
    ensures
      var q := s.coords[k];
      && s.orch.tailParents <= q.node < s.orch.issued
      && q.idx == Slot(q.node, c.parentEntries)
      && EntryOk(c, s.parents[q.idx], q.node, s.orch.tailWrite)
      && s.parents[q.idx].pending == {}
  {
    hide Slot, Div, PtrOk, PageShape, CoordShape, HasherOk, CountPast;
    var q := s.coords[k];
    assert s.orch.minHash <= q.published;
    assert EntryOk(c, s.parents[Slot(q.node, c.parentEntries)], q.node, s.orch.tailWrite);
  }

  /** A parent far enough back to be copied has been hashed by all of the coordinator's hashers. */
  lemma FarParentHashed(c: Config, issued: nat, q: Coordinator, x: nat, i: nat)
    requires Wf(c) && |q.done| == c.batchCount && CoordOk(c, issued, q) && q.filling
    requires x < q.node && q.node - x >= LocalSpan(c)
    requires i < |q.hashers|
    ensures x < q.completed <= q.hashers[i].node <= q.node
  {
    hide Slot, Div, CountPast;
    DivFar(x, q.node, c.batchSize, c.batchCount);
    SlotOffset(q.nextValid, q.count, c.batchSize);
    if q.completed <= x { DivMonotone(q.completed, x, c.batchSize); }
    assert HasherOk(c, q, q.hashers[i]);
  }

  /** The labels a coordinator loads through a pointer it copies. */
  lemma LoadedRight(c: Config, s: State, k: nat, j: nat)
    requires Wf(c) && Inv(c, s) && CanCopy(c, s, k)
    requires EntryShape(s.parents[s.coords[k].idx])
    requires NodeOf(c, s.coords[k].node) > 0 && 0 < j < PARENTS
    requires s.parents[s.coords[k].idx].syncs[j] != LocalNode
    ensures
      var e := s.parents[s.coords[k].idx];
      var v := Load(s, e.ptrs[j], k);
      e.ptrs[j] != Null && |v| == c.hashers[k]
      && forall i :: 0 <= i < c.hashers[k] ==> v[i] == Label(c, k, i, ParentId(c, s.coords[k].node, j))
  {
    hide Slot, Div, NodesOk, SyncsOk, RingsOk, BatchOk, HasherOk, CountPast, CellsOk, SeenOk, Label, LocalSpan;
    var q := s.coords[k];
    assert CoordOk(c, s.orch.issued, q);
    assert CoordShape(c, k, q);
    CopyReady(c, s, k);
    var e := s.parents[q.idx];
    var x := ParentId(c, q.node, j);
    assert PtrOk(c, e, q.node, j, s.orch.tailWrite);
    if e.ptrs[j].NodePtr? {
      forall i | 0 <= i < c.hashers[k]
        ensures Stored(c, s.nodes, k, i, x) == Label(c, k, i, x)
      {
        FarParentHashed(c, s.orch.issued, q, x, i);
        DivMonotone(q.hashers[i].node, q.node, c.nodesPerPage);
        assert ColumnOk(c, s.nodes, k, i, q.hashers[i].node);
      }
      assert PageShape(c, s.nodes[EntryOf(c, x)].page);
      assert RowShape(c, s.nodes[EntryOf(c, x)].page[RowOf(c, x)]);
      assert Load(s, e.ptrs[j], k) == s.nodes[EntryOf(c, x)].page[RowOf(c, x)][k];
      forall i | 0 <= i < c.hashers[k]
        ensures s.nodes[EntryOf(c, x)].page[RowOf(c, x)][k][i] == Label(c, k, i, x)
      {
        assert Stored(c, s.nodes, k, i, x) == Label(c, k, i, x);
      }
    } else {
      assert RowIs(c, e.pages[j - 1][RowOf(c, x)], x);
    }
  }

  /** Everything the hashers will consume for a copied node is in its cell. */
  lemma CopiedRight(c: Config, s: State, k: nat, was: Cell)
    requires Wf(c) && Inv(c, s) && CanCopy(c, s, k)
    requires EntryShape(s.parents[s.coords[k].idx]) && |was.data| == PARENTS
    ensures CellOk(c, k, CopiedCell(s, k, s.parents[s.coords[k].idx], was), s.coords[k].node)
  {
    hide Slot, Div, NodesOk, SyncsOk, RingsOk, BatchOk, HasherOk, CountPast, CellsOk, SeenOk, Label, LocalSpan,
      BufferOk, Load, RowIs;
    var q := s.coords[k];
    assert CoordOk(c, s.orch.issued, q);
    CopyReady(c, s, k);
    var e := s.parents[q.idx];
    var cell := CopiedCell(s, k, e, was);
    forall j | 0 <= j < ParentCount(c, q.node)
      ensures SourceOk(c, k, cell, q.node, j)
    {
      if j > 0 {
        assert PtrOk(c, e, q.node, j, s.orch.tailWrite);
        if e.syncs[j] != LocalNode {
          LoadedRight(c, s, k, j);
        }
      }
    }
  }

  lemma CopyKeepsCells(c: Config, s: State, k: nat)
    requires Wf(c) && Inv(c, s) && CanCopy(c, s, k)
    requires k < |c.hashers| && CoordShape(c, k, s.coords[k]) && EntryShape(s.parents[s.coords[k].idx])
    ensures CoordShape(c, k, CopyNode(c, s, k).coords[k]) && CellsOk(c, k, CopyNode(c, s, k).coords[k])
  {
    hide Slot, Div, EntriesOk, BufferOk, ScanOk, NodesOk, SyncsOk, RingsOk, BatchOk, HasherOk, CountPast, SeenOk,
      Label, LocalSpan, CellOk, PageShape, Load;
    var q := s.coords[k];
    var q' := CopyNode(c, s, k).coords[k];
    assert CoordOk(c, s.orch.issued, q) && CellsOk(c, k, q);
    CopiedRight(c, s, k, q.cells[q.batchIdx][q.count]);
    SlotOffset(q.nextValid, q.count, c.batchSize);
    forall b | 0 <= b < |q'.cells|
      ensures |q'.cells[b]| == c.batchSize
      ensures forall i :: 0 <= i < |q'.cells[b]| ==>
        |q'.cells[b][i].ptrs| == PARENTS && |q'.cells[b][i].data| == PARENTS
    {
      assert |q.cells[b]| == c.batchSize;
    }
    assert CoordShape(c, k, q');
    forall y | q.completed <= y < q'.node
      ensures CellOk(c, k, q'.cells[Slot(Div(y, c.batchSize), c.batchCount)][Slot(y, c.batchSize)], y)
    {
      if y < q.node {
        DivMonotone(q.completed, y, c.batchSize);
        DivMonotone(y, q.node, c.batchSize);
        if Div(y, c.batchSize) < Div(q.node, c.batchSize) {
          SlotsDiffer(Div(y, c.batchSize), Div(q.node, c.batchSize), c.batchCount);
        }
      }
    }
  }

  lemma CopyKeepsCoord(c: Config, s: State, k: nat)
    requires Wf(c) && Shape(c, s) && CanCopy(c, s, k)
    requires OrchOk(c, s.orch) && EntriesOk(c, s.orch, s.parents) && ScanOk(c, s.orch, s.coords)
    requires CoordOk(c, s.orch.issued, s.coords[k]) && SeenOk(c, s.orch, s.parents, s.coords[k])
    requires k < |c.hashers| && CoordShape(c, k, s.coords[k]) && EntryShape(s.parents[s.coords[k].idx])
    ensures CoordOk(c, s.orch.issued, CopyNode(c, s, k).coords[k])
    ensures SeenOk(c, s.orch, s.parents, CopyNode(c, s, k).coords[k])
  {
    hide Slot, Div, EntriesOk, EntryOk, ScanOk, CountPast, CopiedCell, PageShape, OrchOk, LocalSpan;
    var q := s.coords[k];
    var q' := CopyNode(c, s, k).coords[k];
    CopyReady(c, s, k);
    SlotNext(q.node, c.parentEntries);
    SlotOffset(q.nextValid, c.batchSize, c.batchSize);
    forall i | 0 <= i < |q'.hashers| ensures HasherOk(c, q', q'.hashers[i]) {
      assert HasherOk(c, q, q.hashers[i]);
    }
  }

  lemma CopyKeepsInv(c: Config, s: State, k: nat)
    requires Wf(c) && Inv(c, s) && CanCopy(c, s, k)
    ensures Inv(c, CopyNode(c, s, k))
  {
    hide Slot, Div, EntriesOk, SyncsOk, OrchOk, RingsOk, BatchOk, NodesOk, Label, PageShape, CellsOk, CoordOk,
      SeenOk, CopiedCell;
    assert CoordOk(c, s.orch.issued, s.coords[k]) && SeenOk(c, s.orch, s.parents, s.coords[k]);
    assert CoordShape(c, k, s.coords[k]) && EntryShape(s.parents[s.coords[k].idx]);
    var s' := CopyNode(c, s, k);
    CopyKeepsCells(c, s, k);
    CopyKeepsCoord(c, s, k);
    forall k' | 0 <= k' < |s'.coords| ensures CoordShape(c, k', s'.coords[k']) {
      assert CoordShape(c, k', s.coords[k']);
    }
    CoordsFrame(c, s, s', k);
    BufferFrame(c, s.nodes, s.coords, s'.coords);
  }

  // ----- Taking back, opening and reporting batches --------------------------------------------

  lemma {:induction false} AllPast(c: Config, hs: seq<Hasher>, b: nat, i: nat)
    requires c.batchSize > 0 && CountPast(c, hs, b) == |hs| && i < |hs|
    ensures Finished(c, hs[i]) > b
    decreases |hs|
  {
    if i < |hs| - 1 {
      AllPast(c, hs[..|hs| - 1], b, i);
    }
  }

  lemma {:induction false} NonePast(c: Config, hs: seq<Hasher>, b: nat)
    requires c.batchSize > 0
    requires forall i :: 0 <= i < |hs| ==> Finished(c, hs[i]) <= b
    ensures CountPast(c, hs, b) == 0
    decreases |hs|
  {
    if hs != [] {
      NonePast(c, hs[..|hs| - 1], b);
    }
  }

  /** When the done count of the oldest batch is full, every hasher is past that batch. */
  lemma RecycleReady(c: Config, issued: nat, q: Coordinator, i: nat)
    requires Wf(c) && |q.done| == c.batchCount && CoordOk(c, issued, q)
    requires q.done[q.ring.tail] == |q.hashers| && i < |q.hashers|
    ensures HasherOk(c, q, q.hashers[i])
    ensures q.completed + c.batchSize <= q.hashers[i].node - q.hashers[i].pos
    ensures Finished(c, q.hashers[i]) <= Div(q.nextValid, c.batchSize)
  {
    hide Slot, Div, CountPast;
    var h := q.hashers[i];
    var first := Div(q.completed, c.batchSize);
    assert HasherOk(c, q, h);
    assert q.done[Slot(first, c.batchCount)] == CountPast(c, q.hashers, first);
    AllPast(c, q.hashers, first, i);
    if h.node - h.pos <= q.completed { DivMonotone(h.node - h.pos, q.completed, c.batchSize); }
    NextBoundary(q.completed, h.node - h.pos, c.batchSize);
    DivMonotone(h.node - h.pos, q.nextValid, c.batchSize);
  }

  lemma RecycleKeepsCoord(c: Config, s: State, k: nat)
    requires Wf(c) && CanRecycle(c, s, k) && k < |c.hashers| && CoordShape(c, k, s.coords[k])
    requires CoordOk(c, s.orch.issued, s.coords[k])
    ensures CoordOk(c, s.orch.issued, Recycle(c, s, k).coords[k])
  {
    hide Slot, Div, CountPast;
    var q := s.coords[k];
    var q' := Recycle(c, s, k).coords[k];
    var first := Div(q.completed, c.batchSize);
    RecycleReady(c, s.orch.issued, q, 0);
    SlotOffset(q.completed, c.batchSize, c.batchSize);
    DivMonotone(q.completed + c.batchSize, q.nextValid, c.batchSize);
    SlotNext(first, c.batchCount);
    forall i | 0 <= i < |q'.hashers| ensures HasherOk(c, q', q'.hashers[i]) {
      RecycleReady(c, s.orch.issued, q, i);
    }
    forall b | first + 1 <= b < first + 1 + c.batchCount
      ensures q'.done[Slot(b, c.batchCount)] == CountPast(c, q'.hashers, b)
    {
      if b == first + c.batchCount {
        SlotAdd(first, c.batchCount, c.batchCount);
        forall i | 0 <= i < |q.hashers| ensures Finished(c, q.hashers[i]) <= b {
          RecycleReady(c, s.orch.issued, q, i);
        }
        NonePast(c, q.hashers, b);
      } else {
        SlotsDiffer(first, b, c.batchCount);
      }
    }
  }

  lemma RecycleKeepsInv(c: Config, s: State, k: nat)
    requires Wf(c) && Inv(c, s) && CanRecycle(c, s, k)
    ensures Inv(c, Recycle(c, s, k))
  {
    hide Slot, Div, EntriesOk, SyncsOk, OrchOk, RingsOk, BatchOk, NodesOk, Label, PageShape, CoordOk, CellOk;
    var q := s.coords[k];
    assert CoordOk(c, s.orch.issued, q) && SeenOk(c, s.orch, s.parents, q) && CellsOk(c, k, q);
    assert CoordShape(c, k, s.coords[k]);
    var s' := Recycle(c, s, k);
    RecycleKeepsCoord(c, s, k);
    forall k' | 0 <= k' < |s'.coords| ensures CoordShape(c, k', s'.coords[k']) {
      assert CoordShape(c, k', s.coords[k']);
    }
    assert CellsOk(c, k, s'.coords[k]);
    CoordsFrame(c, s, s', k);
    BufferFrame(c, s.nodes, s.coords, s'.coords);
  }

  lemma ReserveKeepsInv(c: Config, s: State, k: nat)
    requires Wf(c) && Inv(c, s) && CanReserve(c, s, k)
    ensures Inv(c, Reserve(s, k))
  {
    hide Slot, Div, EntriesOk, SyncsOk, OrchOk, RingsOk, BatchOk, NodesOk, Label, PageShape, CellOk, CountPast;
    var q := s.coords[k];
    assert CoordOk(c, s.orch.issued, q) && SeenOk(c, s.orch, s.parents, q) && CellsOk(c, k, q);
    assert CoordShape(c, k, s.coords[k]);
    var s' := Reserve(s, k);
    var q' := s'.coords[k];
    SlotNext(Div(q.nextValid, c.batchSize), c.batchCount);
    forall i | 0 <= i < |q'.hashers| ensures HasherOk(c, q', q'.hashers[i]) {
      assert HasherOk(c, q, q.hashers[i]);
    }
    assert CoordOk(c, s.orch.issued, q');
    forall k' | 0 <= k' < |s'.coords| ensures CoordShape(c, k', s'.coords[k']) {
      assert CoordShape(c, k', s.coords[k']);
    }
    assert CellsOk(c, k, q');
    CoordsFrame(c, s, s', k);
    BufferFrame(c, s.nodes, s.coords, s'.coords);
  }

  lemma PublishKeepsInv(c: Config, s: State, k: nat)
    requires Wf(c) && Inv(c, s) && k < |s.coords|
    ensures Inv(c, Publish(s, k))
  {
    hide Slot, Div, EntriesOk, SyncsOk, OrchOk, RingsOk, BatchOk, NodesOk, Label, PageShape, CellOk, CountPast;
    var q := s.coords[k];
    assert CoordOk(c, s.orch.issued, q) && SeenOk(c, s.orch, s.parents, q) && CellsOk(c, k, q);
    assert CoordShape(c, k, s.coords[k]);
    var s' := Publish(s, k);
    var q' := s'.coords[k];
    forall i | 0 <= i < |q'.hashers| ensures HasherOk(c, q', q'.hashers[i]) {
      assert HasherOk(c, q, q.hashers[i]);
    }
    assert CoordOk(c, s.orch.issued, q');
    forall k' | 0 <= k' < |s'.coords| ensures CoordShape(c, k', s'.coords[k']) {
      assert CoordShape(c, k', s.coords[k']);
    }
    assert CellsOk(c, k, q');
    CoordsFrame(c, s, s', k);
    BufferFrame(c, s.nodes, s.coords, s'.coords);
  }
}
