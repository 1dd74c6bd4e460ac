/** What a hasher computes, and that its steps keep the invariant. */
module Pc1Hashers {
  import opened RingMath
  import opened Pc1Graph
  import opened Pc1Machine
  import opened Pc1Invariant

  lemma {:induction false} SlotOffset(a: nat, d: nat, m: nat)
    requires m > 0 && Slot(a, m) == 0 && d <= m
    ensures d < m ==> Slot(a + d, m) == d && Div(a + d, m) == Div(a, m)
    ensures d == m ==> Slot(a + d, m) == 0 && Div(a + d, m) == Div(a, m) + 1
    decreases d
  {
    if d > 0 {
      SlotOffset(a, d - 1, m);
      SlotNext(a + d - 1, m);
    }
  }

  /** Of two block boundaries the later is at least a block on. */
  lemma {:induction false} NextBoundary(a: nat, b: nat, m: nat)
    requires m > 0 && Slot(a, m) == 0 && Slot(b, m) == 0 && a < b
    ensures a + m <= b
    ensures Div(a, m) < Div(b, m)
  {
    if b - a < m { SlotOffset(a, b - a, m); }
    DivMonotone(a, b, m);
  }

  /** A hasher about to hash works on a batch its coordinator has completed. */
  lemma HasherReady(c: Config, s: State, k: nat, i: nat)
    requires Wf(c) && Inv(c, s) && CanHash(c, s, k, i)
    ensures
      var q := s.coords[k];
      var h := q.hashers[i];
      && HasherOk(c, q, h)
      && h.node - h.pos + c.batchSize <= q.nextValid <= q.node
      && q.completed <= h.node < q.node
      && h.ringIdx == Slot(Div(h.node, c.batchSize), c.batchCount)
      && h.pos == Slot(h.node, c.batchSize)
  {
    hide Slot, Div, EntriesOk, NodesOk, BufferOk, SyncsOk, RingsOk, BatchOk, ScanOk, OrchOk, CellsOk, SeenOk;
    var q := s.coords[k];
    var h := q.hashers[i];
    assert CoordOk(c, s.orch.issued, q);
    assert HasherOk(c, q, h);
    SlotOffset(h.node - h.pos, h.pos, c.batchSize);
    if h.pos == 0 {
      NextBoundary(h.node, h.valid, c.batchSize);
    }
  }

  /** Refinement of one hash: the value a hasher is about to write is the sequential label. */
  lemma HashedRight(c: Config, s: State, k: nat, i: nat)
    requires Wf(c) && Inv(c, s) && CanHash(c, s, k, i)
    ensures HashValue(c, s, k, i) == Label(c, k, i, s.coords[k].hashers[i].node)
  {
    hide Slot, Div, EntriesOk, NodesOk, SyncsOk, BatchOk, ScanOk;
    HasherReady(c, s, k, i);
    var q := s.coords[k];
    var h := q.hashers[i];
    var y := h.node;
    var cell := q.cells[h.ringIdx][h.pos];
    assert CellsOk(c, k, q);
    assert CellOk(c, k, cell, y);
    var ins := HashInputs(c, s, k, i, cell, y);
    forall j | 0 <= j < ParentCount(c, y)
      ensures ins[j] == Inputs(c, k, i, y)[j]
    {
      var x := ParentId(c, y, j);
      ParentBefore(c, y, j);
      assert SourceOk(c, k, cell, y, j);
      if cell.ptrs[j] != Null {
        assert ColumnOk(c, s.nodes, k, i, y);
        assert Stored(c, s.nodes, k, i, x) == Label(c, k, i, x);
      }
    }
    assert ins == Inputs(c, k, i, y);
  }

  lemma {:induction false} CountPastSame(c: Config, hs: seq<Hasher>, hs': seq<Hasher>, b: nat)
    requires c.batchSize > 0 && |hs| == |hs'|
    requires forall i :: 0 <= i < |hs| ==> Finished(c, hs[i]) == Finished(c, hs'[i])
    ensures CountPast(c, hs, b) == CountPast(c, hs', b)
    decreases |hs|
  {
    if hs != [] {
      CountPastSame(c, hs[..|hs| - 1], hs'[..|hs| - 1], b);
    }
  }

  lemma NextNodeIdx(c: Config, x: nat)
    requires Wf(c)
    ensures Slot(NodeOf(c, x), c.nodesPerPage) == RowOf(c, x)
    ensures EntryOf(c, x + 1) ==
            (if Slot(NodeOf(c, x + 1), c.nodesPerPage) == 0 then Incr(EntryOf(c, x), c.pages) else EntryOf(c, x))
  {
    SlotOfSlot(x, c.layerSize, c.nodesPerPage);
    SlotOfSlot(x + 1, c.layerSize, c.nodesPerPage);
    SlotNext(x, c.nodesPerPage);
    SlotNext(PageOf(c, x), c.pages);
  }

  /** Steps of a hasher only touch its record, its batch counters and its column. */
  lemma HashKeepsShape(c: Config, s: State, k: nat, i: nat)
    requires Wf(c) && Shape(c, s) && CanHash(c, s, k, i)
    ensures Shape(c, HashNode(c, s, k, i))
  {
    hide Slot, Div, HashValue;
    var s' := HashNode(c, s, k, i);
    forall e | 0 <= e < |s'.nodes| ensures PageShape(c, s'.nodes[e].page) {
      assert PageShape(c, s.nodes[e].page);
    }
    forall k' | 0 <= k' < |s'.coords| ensures CoordShape(c, k', s'.coords[k']) {
      assert CoordShape(c, k', s.coords[k']);
    }
  }

  lemma HashKeepsCoord(c: Config, s: State, k: nat, i: nat)
    requires Wf(c) && Inv(c, s) && CanHash(c, s, k, i)
    requires Shape(c, HashNode(c, s, k, i))
    ensures CoordsOk(c, HashNode(c, s, k, i))
  {
    hide Slot, Div, EntriesOk, NodesOk, BufferOk, SyncsOk, RingsOk, BatchOk, ScanOk, OrchOk, CellOk, HashValue,
      CountPast, PageShape;
    var s' := HashNode(c, s, k, i);
    var q, q' := s.coords[k], s'.coords[k];
    HasherReady(c, s, k, i);
    NextNodeIdx(c, q.hashers[i].node);
    assert HasherOk(c, q', q'.hashers[i]);
    assert CoordOk(c, s.orch.issued, q);
    forall i' | 0 <= i' < |q'.hashers| ensures HasherOk(c, q', q'.hashers[i']) {
      assert HasherOk(c, q, q.hashers[i']);
    }
    forall b | Div(q.completed, c.batchSize) <= b < Div(q.completed, c.batchSize) + c.batchCount
      ensures q'.done[Slot(b, c.batchCount)] == CountPast(c, q'.hashers, b)
    {
      CountPastSame(c, q.hashers, q'.hashers, b);
    }
    forall k' | 0 <= k' < |s'.coords|
      ensures CoordOk(c, s'.orch.issued, s'.coords[k']) && SeenOk(c, s'.orch, s'.parents, s'.coords[k'])
        && CellsOk(c, k', s'.coords[k'])
    {
      assert CoordOk(c, s.orch.issued, s.coords[k']) && SeenOk(c, s.orch, s.parents, s.coords[k'])
        && CellsOk(c, k', s.coords[k']);
    }
  }

  lemma HashKeepsBuffer(c: Config, s: State, k: nat, i: nat)
    requires Wf(c) && Inv(c, s) && CanHash(c, s, k, i)
    requires Shape(c, HashNode(c, s, k, i))
    ensures BufferOk(c, HashNode(c, s, k, i).nodes, HashNode(c, s, k, i).coords)
  {
    hide Slot, Div, EntriesOk, NodesOk, SyncsOk, RingsOk, BatchOk, ScanOk, OrchOk, CoordsOk, HashValue, Label;
    var s' := HashNode(c, s, k, i);
    HasherReady(c, s, k, i);
    HashedRight(c, s, k, i);
    var t := s.coords[k].hashers[i].node;
    NextNodeIdx(c, t);
    SlotNext(t, c.nodesPerPage);
    forall k', i' | 0 <= k' < |s'.coords| && 0 <= i' < |s'.coords[k'].hashers|
      ensures ColumnOk(c, s'.nodes, k', i', s'.coords[k'].hashers[i'].node)
    {
      assert ColumnOk(c, s.nodes, k', i', s.coords[k'].hashers[i'].node);
      assert PageShape(c, s.nodes[EntryOf(c, t)].page);
      assert RowShape(c, s.nodes[EntryOf(c, t)].page[RowOf(c, t)]);
      forall x | 0 <= x < s'.coords[k'].hashers[i'].node
                 && PageOf(c, s'.coords[k'].hashers[i'].node) < PageOf(c, x) + c.pages
        ensures Stored(c, s'.nodes, k', i', x) == Label(c, k', i', x)
      {
        if k' == k && i' == i {
          if x < t {
            PositionsDiffer(c, x, t);
            assert Stored(c, s'.nodes, k, i, x) == Stored(c, s.nodes, k, i, x);
          }
        } else {
          assert Stored(c, s'.nodes, k', i', x) == Stored(c, s.nodes, k', i', x);
        }
      }
    }
  }

  lemma HashKeepsInv(c: Config, s: State, k: nat, i: nat)
    requires Wf(c) && Inv(c, s) && CanHash(c, s, k, i)
    ensures Inv(c, HashNode(c, s, k, i))
  {
    hide Slot, Div, EntriesOk, SyncsOk, OrchOk, CoordsOk, BufferOk, HashValue, Label, PageShape, OnDisk, LiveRefs,
      RingsOk, BatchOk;
    var s' := HashNode(c, s, k, i);
    HashKeepsShape(c, s, k, i);
    HashKeepsCoord(c, s, k, i);
    HashKeepsBuffer(c, s, k, i);
    forall q | PageOf(c, s.orch.tailNode) <= q < PageOf(c, s.orch.tailNode) + c.pages
      ensures NodeEntryOk(c, s.orch, s'.nodes[Slot(q, c.pages)], q, s.disk)
    {
      assert NodeEntryOk(c, s.orch, s.nodes[Slot(q, c.pages)], q, s.disk);
    }
  }

  // ----- Loading the valid count, and reporting a batch ----------------------------------------

  lemma {:induction false} CountPastBump(c: Config, hs: seq<Hasher>, i: nat, h: Hasher, b: nat)
    requires c.batchSize > 0 && i < |hs| && Finished(c, h) == Finished(c, hs[i]) + 1
    ensures CountPast(c, hs[i := h], b) == CountPast(c, hs, b) + (if b == Finished(c, hs[i]) then 1 else 0)
    decreases |hs|
  {
    var n := |hs| - 1;
    if i < n {
      assert hs[i := h][..n] == hs[..n][i := h];
      CountPastBump(c, hs[..n], i, h, b);
    } else {
      assert hs[i := h][..n] == hs[..n];
    }
  }

  lemma LookKeepsCoord(c: Config, s: State, k: nat, i: nat)
    requires Wf(c) && CanLoad(s, k, i) && k < |c.hashers| && CoordShape(c, k, s.coords[k])
    requires CoordOk(c, s.orch.issued, s.coords[k])
    ensures CoordOk(c, s.orch.issued, LoadValid(s, k, i).coords[k])
  {
    hide Slot, Div, CountPast;
    var q, q' := s.coords[k], LoadValid(s, k, i).coords[k];
    forall i' | 0 <= i' < |q'.hashers| ensures HasherOk(c, q', q'.hashers[i']) {
      assert HasherOk(c, q, q.hashers[i']);
    }
    forall b | Div(q.completed, c.batchSize) <= b < Div(q.completed, c.batchSize) + c.batchCount
      ensures q'.done[Slot(b, c.batchCount)] == CountPast(c, q'.hashers, b)
    {
      CountPastSame(c, q.hashers, q'.hashers, b);
    }
  }

  lemma LookKeepsInv(c: Config, s: State, k: nat, i: nat)
    requires Wf(c) && Inv(c, s) && CanLoad(s, k, i)
    ensures Inv(c, LoadValid(s, k, i))
  {
    hide Slot, Div, EntriesOk, SyncsOk, OrchOk, RingsOk, BatchOk, NodesOk, Label, PageShape, CountPast, CellOk,
      CoordOk, HasherOk;
    var s' := LoadValid(s, k, i);
    var q, q' := s.coords[k], s'.coords[k];
    assert CoordOk(c, s.orch.issued, q) && CoordShape(c, k, q) && CellsOk(c, k, q);
    LookKeepsCoord(c, s, k, i);
    forall k' | 0 <= k' < |s'.coords| ensures CoordShape(c, k', s'.coords[k']) {
      assert CoordShape(c, k', s.coords[k']);
    }
    assert CellsOk(c, k, q');
    CoordsFrame(c, s, s', k);
    BufferFrame(c, s.nodes, s.coords, s'.coords);
  }

  /** A step of coordinator k leaves the parts about the other coordinators alone. */
  lemma CoordsFrame(c: Config, s: State, s': State, k: nat)
    requires Wf(c) && Shape(c, s) && Shape(c, s') && CoordsOk(c, s) && k < |s.coords|
    requires s'.orch == s.orch && s'.parents == s.parents
    requires forall k' :: 0 <= k' < |s.coords| && k' != k ==> s'.coords[k'] == s.coords[k']
    requires CoordOk(c, s.orch.issued, s'.coords[k]) && SeenOk(c, s.orch, s.parents, s'.coords[k])
    requires CellsOk(c, k, s'.coords[k])
    ensures CoordsOk(c, s')
  {
    hide CoordOk, SeenOk, CellsOk, Slot, Div, PageShape, EntryShape;
    forall k' | 0 <= k' < |s'.coords|
      ensures CoordOk(c, s'.orch.issued, s'.coords[k']) && SeenOk(c, s'.orch, s'.parents, s'.coords[k'])
        && CellsOk(c, k', s'.coords[k'])
    {
      assert CoordOk(c, s.orch.issued, s.coords[k']) && SeenOk(c, s.orch, s.parents, s.coords[k'])
        && CellsOk(c, k', s.coords[k']);
    }
  }

  /** The node buffer part only depends on how far each hasher is. */
  lemma BufferFrame(c: Config, nodes: seq<NodeEntry>, coords: seq<Coordinator>, coords': seq<Coordinator>)
    requires Wf(c) && PagesShape(c, nodes) && |coords| == |coords'| == |c.hashers|
    requires forall k :: 0 <= k < |coords| ==> |coords[k].hashers| == |coords'[k].hashers| == c.hashers[k]
    requires forall k, i :: 0 <= k < |coords| && 0 <= i < |coords[k].hashers| ==>
               coords'[k].hashers[i].node == coords[k].hashers[i].node
    requires BufferOk(c, nodes, coords)
    ensures BufferOk(c, nodes, coords')
  {
    hide Slot, Div, Label, PageShape, ColumnOk;
    forall k, i | 0 <= k < |coords'| && 0 <= i < |coords'[k].hashers|
      ensures ColumnOk(c, nodes, k, i, coords'[k].hashers[i].node)
    {
      assert ColumnOk(c, nodes, k, i, coords[k].hashers[i].node);
    }
  }

  /** The batch a hasher reports is still in the ring: its entry has not been refilled. */
  lemma FinishedLive(c: Config, issued: nat, q: Coordinator, i: nat)
    requires Wf(c) && |q.done| == c.batchCount && CoordOk(c, issued, q)
    requires i < |q.hashers| && q.hashers[i].pos == c.batchSize
    ensures
      var h := q.hashers[i];
      && HasherOk(c, q, h)
      && Div(q.completed, c.batchSize) <= Finished(c, h) < Div(q.nextValid, c.batchSize)
      && Finished(c, h) < Div(q.completed, c.batchSize) + c.batchCount
      && Slot(h.node, c.batchSize) == 0 && Div(h.node, c.batchSize) == Finished(c, h) + 1
  {
    hide Slot, Div, CountPast;
    var h := q.hashers[i];
    assert HasherOk(c, q, h);
    SlotOffset(h.node - h.pos, c.batchSize, c.batchSize);
    DivMonotone(q.completed, h.node - h.pos, c.batchSize);
    DivMonotone(h.node, q.nextValid, c.batchSize);
  }

  lemma FinishKeepsCoord(c: Config, s: State, k: nat, i: nat)
    requires Wf(c) && Shape(c, s) && CanFinish(c, s, k, i) && k < |c.hashers| && CoordShape(c, k, s.coords[k])
    requires CoordOk(c, s.orch.issued, s.coords[k])
    ensures CoordOk(c, s.orch.issued, FinishBatch(c, s, k, i).coords[k])
  {
    hide Slot, Div, CountPast, PageShape, EntryShape;
    var s' := FinishBatch(c, s, k, i);
    var q, q' := s.coords[k], s'.coords[k];
    var h := q.hashers[i];
    FinishedLive(c, s.orch.issued, q, i);
    var f := Finished(c, h);
    SlotNext(f, c.batchCount);
    assert HasherOk(c, q', q'.hashers[i]);
    forall i' | 0 <= i' < |q'.hashers| ensures HasherOk(c, q', q'.hashers[i']) {
      assert HasherOk(c, q, q.hashers[i']);
    }
    forall b | Div(q.completed, c.batchSize) <= b < Div(q.completed, c.batchSize) + c.batchCount
      ensures q'.done[Slot(b, c.batchCount)] == CountPast(c, q'.hashers, b)
    {
      CountPastBump(c, q.hashers, i, q'.hashers[i], b);
      if b < f { SlotsDiffer(b, f, c.batchCount); }
      if f < b { SlotsDiffer(f, b, c.batchCount); }
    }
  }

  lemma FinishKeepsInv(c: Config, s: State, k: nat, i: nat)
    requires Wf(c) && Inv(c, s) && CanFinish(c, s, k, i)
    ensures Inv(c, FinishBatch(c, s, k, i))
  {
    hide Slot, Div, EntriesOk, SyncsOk, OrchOk, RingsOk, BatchOk, NodesOk, Label, PageShape, CountPast, CellOk,
      CoordOk, HasherOk;
    var s' := FinishBatch(c, s, k, i);
    var q, q' := s.coords[k], s'.coords[k];
    assert CoordOk(c, s.orch.issued, q) && CoordShape(c, k, q) && CellsOk(c, k, q);
    FinishKeepsCoord(c, s, k, i);
    forall k' | 0 <= k' < |s'.coords| ensures CoordShape(c, k', s'.coords[k']) {
      assert CoordShape(c, k', s.coords[k']);
    }
    assert CellsOk(c, k, q');
    CoordsFrame(c, s, s', k);
    BufferFrame(c, s.nodes, s.coords, s'.coords);
  }
}
