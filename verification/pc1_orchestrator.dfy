/** The orchestrator's steps keep the invariant. */
module Pc1Orchestrator {
  import opened RingMath
  import opened Pc1Graph
  import opened Pc1Machine
  import opened Pc1Invariant
  import opened Pc1Hashers
  import opened Pc1Disk

  /** The node buffer and disk parts only depend on four of the cursors. */
  lemma NodesFrame(c: Config, o: Orchestrator, o': Orchestrator, nodes: seq<NodeEntry>, disk: map<nat, Page>)
    requires Wf(c) && |nodes| == c.pages && NodesOk(c, o, nodes, disk)
    requires o'.tailNode == o.tailNode && o'.tailWrite == o.tailWrite
    requires o'.headWrite == o.headWrite && o'.reserved == o.reserved
    ensures NodesOk(c, o', nodes, disk)
  {
    hide Slot, Div, OnDisk;
    forall q | PageOf(c, o.tailNode) <= q < PageOf(c, o.tailNode) + c.pages
      ensures NodeEntryOk(c, o', nodes[Slot(q, c.pages)], q, disk)
    {
      assert NodeEntryOk(c, o, nodes[Slot(q, c.pages)], q, disk);
    }
  }

  lemma ScanKeepsInv(c: Config, s: State)
    requires Wf(c) && Inv(c, s) && CanScan(s)
    ensures Inv(c, ScanHashed(s))
  {
    hide Slot, Div, EntryOk, NodesOk, LiveRefs, CellsOk, Label, PageShape, BufferOk, EntryShape, CountPast, SeenOk,
      HasherOk, BatchOk;
    var s' := ScanHashed(s);
    var o, o' := s.orch, s'.orch;
    assert CoordShape(c, o.scanned, s.coords[o.scanned]);
    assert CoordOk(c, o.issued, s.coords[o.scanned]);
    assert o'.minHash <= o.issued;
    NodesFrame(c, o, o', s.nodes, s.disk);
    assert EntriesOk(c, o', s'.parents);
    assert SyncsOk(c, o', s'.parents, s'.syncs);
    assert BatchOk(c, o') by { BatchFrame(c, o, o'); }
    CoordsLater(c, s, s');
  }

  lemma BatchFrame(c: Config, o: Orchestrator, o': Orchestrator)
    requires Wf(c) && BatchOk(c, o) && o.issued == o.reserved == o'.issued == o'.reserved && o'.prev == o.prev
    ensures BatchOk(c, o')
  {
    hide Slot, Div;
  }

  // ----- Writing pages ------------------------------------------------------------------------

  lemma CounterNext(c: Config, abs: nat, idx: nat)
    requires Wf(c) && CounterOk(c, abs, idx)
    ensures CounterOk(c, abs + c.nodesPerPage, CounterAdd(c, idx))
    ensures PageOf(c, abs + c.nodesPerPage) == PageOf(c, abs) + 1
  {
    var n, d := c.nodesPerPage, Div(idx, c.nodesPerPage);
    assert PageOf(c, abs + n) == PageOf(c, abs) + 1;
    SlotNext(PageOf(c, abs), c.pages);
    SlotIsMod(idx, n);
    assert idx == n * d;
    MulGap(n, d + 1, c.pages);
    assert n * (d + 1) == n * d + n;
    assert c.pages * n == n * c.pages;
    if d == c.pages - 1 {
      assert CounterAdd(c, idx) == 0;
    } else {
      assert CounterAdd(c, idx) == idx + n;
    }
  }

  /** The page handed to the disk is completely hashed and its entry has no write outstanding. */
  lemma SubmitReady(c: Config, s: State)
    requires Wf(c) && Inv(c, s) && CanSubmit(c, s)
    ensures
      var o := s.orch;
      var q := PageOf(c, o.headWrite);
      && o.headWrite + c.nodesPerPage <= o.minHash
      && PageOf(c, o.headWrite + c.nodesPerPage) == q + 1
      && PageOf(c, o.tailNode) <= PageOf(c, o.tailWrite) <= q < PageOf(c, o.reserved) < PageOf(c, o.tailNode) + c.pages
      && Div(o.headWriteIdx, c.nodesPerPage) == Slot(q, c.pages)
      && s.nodes[Slot(q, c.pages)].valid == 0 && !s.nodes[Slot(q, c.pages)].writing
  {
    hide Div, EntriesOk, SyncsOk, OnDisk, BatchOk, Label, CoordsOk, BufferOk, PageShape, ScanOk, Slot;
    var o := s.orch;
    var q := PageOf(c, o.headWrite);
    PagePlus(c, o.headWrite);
    if o.minHash < o.headWrite + c.nodesPerPage { DivMonotone(o.minHash, o.headWrite + c.nodesPerPage,
                                                              c.nodesPerPage); }
    DivMonotone(o.tailNode, o.tailWrite, c.nodesPerPage);
    DivMonotone(o.tailWrite, o.headWrite, c.nodesPerPage);
    DivMonotone(o.headWrite + c.nodesPerPage, o.reserved, c.nodesPerPage);
    assert NodeEntryOk(c, o, s.nodes[Slot(q, c.pages)], q, s.disk);
  }

  lemma PagePlus(c: Config, x: nat)
    requires Wf(c)
    ensures PageOf(c, x + c.nodesPerPage) == PageOf(c, x) + 1
    ensures RowOf(c, x + c.nodesPerPage) == RowOf(c, x)
  {
  }

  lemma SubmitKeepsInv(c: Config, s: State)
    requires Wf(c) && Inv(c, s) && CanSubmit(c, s)
    ensures Inv(c, SubmitWrite(c, s))
  {
    hide Div, EntryOk, LiveRefs, OnDisk, Label, CoordsOk, PageShape, EntryShape, CoordShape, ColumnOk, Slot,
      CounterAdd, SeenOk;
    var s' := SubmitWrite(c, s);
    var o, o' := s.orch, s'.orch;
    var q := PageOf(c, o.headWrite);
    SubmitReady(c, s);
    CounterNext(c, o.headWrite, o.headWriteIdx);
    PageRow(c, o.headWrite);
    assert forall e :: 0 <= e < |s.nodes| ==> s'.nodes[e].page == s.nodes[e].page;
    forall e | 0 <= e < |s'.nodes| ensures PageShape(c, s'.nodes[e].page) {
      assert PageShape(c, s.nodes[e].page);
    }
    forall q' | PageOf(c, o.tailNode) <= q' < PageOf(c, o.tailNode) + c.pages
      ensures NodeEntryOk(c, o', s'.nodes[Slot(q', c.pages)], q', s.disk)
    {
      assert NodeEntryOk(c, o, s.nodes[Slot(q', c.pages)], q', s.disk);
      if q' < q { SlotsDiffer(q', q, c.pages); }
      if q < q' { SlotsDiffer(q, q', c.pages); }
    }
    assert EntriesOk(c, o', s'.parents);
    assert SyncsOk(c, o', s'.parents, s'.syncs);
    ShapeHashers(c, s);
    BufferPages(c, s.nodes, s'.nodes, s.coords);
    CoordsLater(c, s, s');
  }

  lemma PageRow(c: Config, x: nat)
    requires Wf(c) && Slot(x, c.nodesPerPage) == 0
    ensures Slot(x + c.nodesPerPage, c.nodesPerPage) == 0
  {
  }

  lemma CoordsLater(c: Config, s: State, s': State)
    requires Wf(c) && Shape(c, s) && Shape(c, s') && CoordsOk(c, s)
    requires s'.coords == s.coords && s'.parents == s.parents
    requires s.orch.issued <= s'.orch.issued && s.orch.tailParents <= s'.orch.tailParents
    ensures CoordsOk(c, s')
  {
    hide Slot, Div, CoordOk, CellsOk, PageShape, EntryShape;
    forall k | 0 <= k < |s.coords| ensures SeenOk(c, s'.orch, s'.parents, s.coords[k]) {
      assert SeenOk(c, s.orch, s.parents, s.coords[k]);
    }
    CoordsStay(c, s, s');
  }

  lemma ShapeHashers(c: Config, s: State)
    requires Shape(c, s)
    ensures forall k :: 0 <= k < |s.coords| ==> |s.coords[k].hashers| == c.hashers[k]
  {
    hide PageShape, EntryShape;
    forall k | 0 <= k < |s.coords| ensures |s.coords[k].hashers| == c.hashers[k] {
      assert CoordShape(c, k, s.coords[k]);
    }
  }

  /** The written tail only moves over pages whose write has completed. */
  lemma AdvanceReady(c: Config, s: State)
    requires Wf(c) && Inv(c, s) && CanAdvance(c, s)
    ensures
      var o := s.orch;
      && o.tailWrite + c.nodesPerPage <= o.headWrite
      && PageOf(c, o.tailWrite + c.nodesPerPage) == PageOf(c, o.tailWrite) + 1
      && PageOf(c, o.tailNode) <= PageOf(c, o.tailWrite) < PageOf(c, o.tailNode) + c.pages
      && OnDisk(c, s.disk, PageOf(c, o.tailWrite))
      && !s.nodes[Slot(PageOf(c, o.tailWrite), c.pages)].writing
  {
    hide Div, EntriesOk, SyncsOk, OnDisk, BatchOk, Label, CoordsOk, BufferOk, PageShape, ScanOk, Slot;
    var o := s.orch;
    var q := PageOf(c, o.tailWrite);
    DivMonotone(o.tailNode, o.tailWrite, c.nodesPerPage);
    DivMonotone(o.tailWrite, o.headWrite, c.nodesPerPage);
    DivMonotone(o.headWrite, o.reserved, c.nodesPerPage);
    assert o.tailWrite != o.headWrite;
    NextBoundary(o.tailWrite, o.headWrite, c.nodesPerPage);
    PagePlus(c, o.tailWrite);
    assert NodeEntryOk(c, o, s.nodes[Slot(q, c.pages)], q, s.disk);
  }

  lemma EntryOkLater(c: Config, e: ParentEntry, y: nat, w: nat, w': nat)
    requires Wf(c) && EntryOk(c, e, y, w) && w <= w'
    ensures EntryOk(c, e, y, w')
  {
    hide Slot, Div, RowIs, LocalSpan;
    if NodeOf(c, y) > 0 {
      forall j | 0 < j < PARENTS ensures PtrOk(c, e, y, j, w') {
        assert PtrOk(c, e, y, j, w);
      }
    }
  }

  lemma AdvanceKeepsInv(c: Config, s: State)
    requires Wf(c) && Inv(c, s) && CanAdvance(c, s)
    ensures Inv(c, AdvanceWritten(c, s))
  {
    hide Div, EntryOk, LiveRefs, OnDisk, Label, CoordsOk, PageShape, EntryShape, CoordShape, BufferOk, Slot,
      CounterAdd, SeenOk;
    var s' := AdvanceWritten(c, s);
    var o, o' := s.orch, s'.orch;
    AdvanceReady(c, s);
    CounterNext(c, o.tailWrite, o.tailWriteIdx);
    PageRow(c, o.tailWrite);
    forall q' | 0 <= q' < PageOf(c, o'.tailWrite) ensures OnDisk(c, s.disk, q') {
      if q' < PageOf(c, o.tailWrite) { assert OnDisk(c, s.disk, q'); }
    }
    forall q' | PageOf(c, o.tailNode) <= q' < PageOf(c, o.tailNode) + c.pages
      ensures NodeEntryOk(c, o', s'.nodes[Slot(q', c.pages)], q', s.disk)
    {
      assert NodeEntryOk(c, o, s.nodes[Slot(q', c.pages)], q', s.disk);
    }
    forall y | o.tailParents <= y < o.issued
      ensures EntryOk(c, s.parents[Slot(y, c.parentEntries)], y, o'.tailWrite)
    {
      EntryOkLater(c, s.parents[Slot(y, c.parentEntries)], y, o.tailWrite, o'.tailWrite);
    }
    assert EntriesOk(c, o', s'.parents);
    assert SyncsOk(c, o', s'.parents, s'.syncs);
    CoordsLater(c, s, s');
  }

  // ----- Releasing ----------------------------------------------------------------------------

  lemma {:induction false} BumpCounts(counts: seq<SyncCount>, marks: seq<Sync>, refs: int, used: int, b: nat)
    requires b < |counts| && (refs == 0 || refs == 1) && used == 1 - refs
    ensures Bump(counts, marks, refs, used)[b] ==
            if refs == 1 then counts[b].(references := counts[b].references + Marks(marks, b))
            else counts[b].(consumed := counts[b].consumed + Marks(marks, b))
    decreases |marks|
  {
    if marks != [] {
      BumpCounts(counts, marks[..|marks| - 1], refs, used, b);
    }
  }

  lemma {:induction false} LiveRefsFirst(ps: seq<ParentEntry>, lo: nat, hi: nat, b: nat)
    requires |ps| > 0 && lo < hi
    ensures LiveRefs(ps, lo, hi, b) == Marks(ps[Slot(lo, |ps|)].syncs, b) + LiveRefs(ps, lo + 1, hi, b)
    decreases hi
  {
    if hi > lo + 1 {
      LiveRefsFirst(ps, lo, hi - 1, b);
    } else {
      assert LiveRefs(ps, lo, lo, b) == 0;
    }
  }

  lemma ReleaseParentKeepsEntries(c: Config, s: State)
    requires Wf(c) && Inv(c, s) && CanReleaseParent(s)
    ensures EntriesOk(c, ReleaseParent(s).orch, s.parents)
  {
    hide Slot, Div, EntryOk, NodesOk, BufferOk, SyncsOk, BatchOk, CellsOk, Label, CountPast;
    var o := s.orch;
    var y0 := o.tailParents;
    var q := s.coords[0];
    assert CoordOk(c, o.issued, q) && SeenOk(c, o, s.parents, q);
    assert s.parents[Slot(y0, c.parentEntries)].pending == {};
    SlotAdd(y0, c.parentEntries, c.parentEntries);
  }

  lemma ReleaseParentKeepsInv(c: Config, s: State)
    requires Wf(c) && Inv(c, s) && CanReleaseParent(s)
    ensures Inv(c, ReleaseParent(s))
  {
    hide Slot, Div, EntriesOk, NodesOk, Label, CoordsOk, PageShape, EntryShape, CoordShape, BufferOk, SeenOk, Bump;
    var s' := ReleaseParent(s);
    var o, o' := s.orch, s'.orch;
    ReleaseParentKeepsEntries(c, s);
    SlotNext(o.tailParents, c.parentEntries);
    forall b | 0 <= b < |s'.syncs|
      ensures s'.syncs[b].references - s'.syncs[b].consumed == LiveRefs(s.parents, o'.tailParents, o.issued, b)
    {
      LiveRefsFirst(s.parents, o.tailParents, o.issued, b);
      BumpCounts(s.syncs, s.parents[s.parentRing.tail].syncs, 0, 1, b);
    }
    NodesFrame(c, o, o', s.nodes, s.disk);
    CoordsLater(c, s, s');
  }

  lemma ReleaseNodeRing(c: Config, s: State)
    requires Wf(c) && Inv(c, s) && CanReleaseNode(s)
    ensures RingsOk(c, ReleaseNode(c, s).orch, ReleaseNode(c, s).nodeRing, s.parentRing)
    ensures
      var o := s.orch;
      var p := PageOf(c, o.tailNode);
      PageOf(c, o.tailNode + 1) == p ||
      (PageOf(c, o.tailNode + 1) == p + 1 && p < PageOf(c, o.tailWrite) && PageOf(c, o.reserved) < p + c.pages)
  {
    hide Slot, Div, EntriesOk, NodesOk, SyncsOk, BatchOk, CoordsOk, Label, CoordShape, PageShape, EntryShape, BufferOk;
    var o := s.orch;
    NextNodeIdx(c, o.tailNode);
    SlotNext(o.tailNode, c.nodesPerPage);
    SlotNext(PageOf(c, o.tailNode), c.pages);
    PageBelow(c, o.tailNode, o.tailWrite);
    DivMonotone(o.tailNode + 1, o.reserved, c.nodesPerPage);
  }

  lemma ReleaseNodeKeepsInv(c: Config, s: State)
    requires Wf(c) && Inv(c, s) && CanReleaseNode(s)
    ensures Inv(c, ReleaseNode(c, s))
  {
    hide Slot, Div, EntryOk, OnDisk, Label, CoordsOk, PageShape, EntryShape, CoordShape, BufferOk, SeenOk, LiveRefs,
      RingsOk;
    var s' := ReleaseNode(c, s);
    var o, o' := s.orch, s'.orch;
    ReleaseNodeRing(c, s);
    var p := PageOf(c, o.tailNode);
    forall q' | PageOf(c, o'.tailNode) <= q' < PageOf(c, o'.tailNode) + c.pages
      ensures NodeEntryOk(c, o', s'.nodes[Slot(q', c.pages)], q', s.disk)
    {
      if q' < p + c.pages {
        assert NodeEntryOk(c, o, s.nodes[Slot(q', c.pages)], q', s.disk);
      } else {
        SlotAdd(p, c.pages, c.pages);
        assert NodeEntryOk(c, o, s.nodes[Slot(p, c.pages)], p, s.disk);
      }
    }
    ReleaseNodeRings2(c, s);
    assert EntriesOk(c, o', s'.parents);
    assert SyncsOk(c, o', s'.parents, s'.syncs);
    CoordsLater(c, s, s');
  }

  lemma ReleaseNodeRings2(c: Config, s: State)
    requires Wf(c) && Shape(c, s) && CanReleaseNode(s)
    ensures ReleaseNode(c, s).nodeRing.tail < c.pages && ReleaseNode(c, s).nodeRing.head == s.nodeRing.head
  {
    hide Slot, Div, PageShape, EntryShape, CoordShape;
  }
}
