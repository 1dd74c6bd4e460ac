/** Disk completions and the cursors that follow them keep the invariant. */
module Pc1Disk {
  import opened RingMath
  import opened Pc1Graph
  import opened Pc1Machine
  import opened Pc1Invariant

  /** Every entry of a ring holds one count of any window as long as the ring. */
  lemma {:induction false} SlotHit(lo: nat, e: nat, m: nat) returns (q: nat)
    requires e < m
    ensures lo <= q < lo + m && Slot(q, m) == e
  {
    var s := Slot(lo, m);
    var d := if e >= s then e - s else e + m - s;
    SlotAdd(lo, d, m);
    q := lo + d;
  }

  /** Steps of the orchestrator and the disk leave the coordinators' own records alone. */
  lemma CoordsStay(c: Config, s: State, s': State)
    requires Wf(c) && Shape(c, s) && Shape(c, s') && CoordsOk(c, s)
    requires s'.coords == s.coords && s.orch.issued <= s'.orch.issued
    requires forall k :: 0 <= k < |s.coords| ==> SeenOk(c, s'.orch, s'.parents, s.coords[k])
    ensures CoordsOk(c, s')
  {
    hide SeenOk, CellsOk, Slot, Div, PageShape, EntryShape, HasherOk, CountPast;
    forall k | 0 <= k < |s'.coords|
      ensures CoordOk(c, s'.orch.issued, s'.coords[k]) && CellsOk(c, k, s'.coords[k])
    {
      assert CoordShape(c, k, s.coords[k]);
      assert CoordOk(c, s.orch.issued, s.coords[k]) && CellsOk(c, k, s.coords[k]);
    }
  }

  lemma {:induction false} LiveRefsSame(ps: seq<ParentEntry>, ps': seq<ParentEntry>, lo: nat, hi: nat, b: nat)
    requires |ps| == |ps'| > 0
    requires forall y :: lo <= y < hi ==> ps[Slot(y, |ps|)].syncs == ps'[Slot(y, |ps|)].syncs
    ensures LiveRefs(ps, lo, hi, b) == LiveRefs(ps', lo, hi, b)
    decreases hi
  {
    if hi > lo {
      LiveRefsSame(ps, ps', lo, hi - 1, b);
    }
  }

  // ----- A read arrives -----------------------------------------------------------------------

  /** A requested page has been written before the request was made, so it is there to be read. */
  lemma ReadsWritten(c: Config, s: State, e: nat, j: nat)
    requires Wf(c) && Inv(c, s) && CanReadDone(s, e, j)
    ensures s.parents[e].requests[j].node < s.orch.tailWrite
    ensures OnDisk(c, s.disk, PageOf(c, s.parents[e].requests[j].node))
  {
    hide Slot, Div, CoordsOk, BufferOk, SyncsOk, ScanOk, RowIs, OnDisk, NodeEntryOk, BatchOk, Label;
    var o := s.orch;
    var y := SlotHit(o.tailParents, e, c.parentEntries);
    assert EntryOk(c, s.parents[e], y, o.tailWrite);
    assert PtrOk(c, s.parents[e], y, j + 1, o.tailWrite);
    var x := s.parents[e].requests[j].node;
    PageBelow(c, x, o.tailWrite);
  }

  lemma PageBelow(c: Config, x: nat, boundary: nat)
    requires Wf(c) && Slot(boundary, c.nodesPerPage) == 0 && x < boundary
    ensures PageOf(c, x) < PageOf(c, boundary)
  {
    DivMonotone(x, boundary, c.nodesPerPage);
  }


  lemma ReadKeepsEntry(c: Config, s: State, e: nat, j: nat, y: nat)
    requires Wf(c) && Shape(c, s) && CanReadDone(s, e, j)
    requires EntryOk(c, s.parents[e], y, s.orch.tailWrite)
    requires OnDisk(c, s.disk, PageOf(c, s.parents[e].requests[j].node))
    ensures EntryOk(c, ReadDone(c, s, e, j).parents[e], y, s.orch.tailWrite)
  {
    hide Slot, Div, Label, LocalSpan, CoordShape;
    var was, now := s.parents[e], ReadDone(c, s, e, j).parents[e];
    var x := was.requests[j].node;
    assert PtrOk(c, was, y, j + 1, s.orch.tailWrite);
    assert PageIs(c, s.disk[PageOf(c, x)], PageOf(c, x));
    assert RowIs(c, s.disk[PageOf(c, x)][RowOf(c, x)], x);
    forall j' | 0 < j' < PARENTS ensures PtrOk(c, now, y, j', s.orch.tailWrite) {
      assert PtrOk(c, was, y, j', s.orch.tailWrite);
    }
  }

  lemma ReadKeepsEntries(c: Config, s: State, e: nat, j: nat)
    requires Wf(c) && Inv(c, s) && CanReadDone(s, e, j)
    ensures EntriesOk(c, s.orch, ReadDone(c, s, e, j).parents)
    ensures forall k :: 0 <= k < |s.coords| ==> SeenOk(c, s.orch, ReadDone(c, s, e, j).parents, s.coords[k])
  {
    hide Slot, Div, BufferOk, SyncsOk, NodesOk, RowIs, OnDisk, BatchOk, Label, EntryOk, CellsOk, CoordOk;
    var o := s.orch;
    var s' := ReadDone(c, s, e, j);
    ReadsWritten(c, s, e, j);
    forall y | o.tailParents <= y < o.issued
      ensures EntryOk(c, s'.parents[Slot(y, c.parentEntries)], y, o.tailWrite)
    {
      assert EntryOk(c, s.parents[Slot(y, c.parentEntries)], y, o.tailWrite);
      if Slot(y, c.parentEntries) == e {
        ReadKeepsEntry(c, s, e, j, y);
      }
    }
    forall k | 0 <= k < |s.coords| ensures SeenOk(c, o, s'.parents, s.coords[k]) {
      assert SeenOk(c, o, s.parents, s.coords[k]);
    }
  }

  lemma ReadKeepsInv(c: Config, s: State, e: nat, j: nat)
    requires Wf(c) && Inv(c, s) && CanReadDone(s, e, j)
    ensures Inv(c, ReadDone(c, s, e, j))
  {
    hide Slot, Div, BufferOk, NodesOk, BatchOk, RingsOk, EntriesOk, OrchOk, EntryOk, CoordsOk, PageShape, Label, SeenOk;
    var s' := ReadDone(c, s, e, j);
    ReadKeepsEntries(c, s, e, j);
    assert Shape(c, s');
    CoordsStay(c, s, s');
    forall b | 0 <= b < |s'.syncs|
      ensures s'.syncs[b].references - s'.syncs[b].consumed == LiveRefs(s'.parents, s.orch.tailParents,
            s.orch.issued, b)
    {
      LiveRefsSame(s.parents, s'.parents, s.orch.tailParents, s.orch.issued, b);
    }
  }

  // ----- A write completes --------------------------------------------------------------------

  /** While a page is with the disk it holds its own nodes' labels: nothing hashes into it. */
  lemma WrittenPage(c: Config, s: State, e: nat) returns (q: nat)
    requires Wf(c) && Inv(c, s) && CanWriteDone(s, e)
    ensures PageOf(c, s.orch.tailNode) <= q < PageOf(c, s.orch.tailNode) + c.pages && Slot(q, c.pages) == e
    ensures PageOf(c, s.orch.tailWrite) <= q < PageOf(c, s.orch.headWrite)
    ensures PageOf(c, s.nodes[e].node) == q && s.nodes[e].valid == 0
    ensures PageIs(c, s.nodes[e].page, q)
  {
    hide Slot, Div, EntriesOk, SyncsOk, RowIs, OnDisk, BatchOk, Label, CellsOk, SeenOk, CountPast;
    var o := s.orch;
    q := SlotHit(PageOf(c, o.tailNode), e, c.pages);
    assert NodeEntryOk(c, o, s.nodes[e], q, s.disk);
    var p := s.nodes[e].page;
    assert PageShape(c, p);
    forall x: nat | PageOf(c, x) == q ensures RowIs(c, p[RowOf(c, x)], x) {
      assert RowShape(c, p[RowOf(c, x)]);
      if o.headWrite <= x { DivMonotone(o.headWrite, x, c.nodesPerPage); }
      WrittenRow(c, s, e, x);
    }
  }

  lemma WrittenRow(c: Config, s: State, e: nat, x: nat)
    requires Wf(c) && Shape(c, s) && OrchOk(c, s.orch) && CoordsOk(c, s) && BufferOk(c, s.nodes, s.coords)
    requires ScanOk(c, s.orch, s.coords)
    requires PageOf(c, s.orch.reserved) < PageOf(c, x) + c.pages && EntryOf(c, x) == e
    requires x < s.orch.headWrite && RowShape(c, s.nodes[e].page[RowOf(c, x)])
    ensures RowIs(c, s.nodes[e].page[RowOf(c, x)], x)
  {
    hide Slot, Div, Label, CellsOk, SeenOk, CountPast, EntryShape;
    forall k, i | 0 <= k < |c.hashers| && 0 <= i < c.hashers[k]
      ensures Stored(c, s.nodes, k, i, x) == Label(c, k, i, x)
    {
      var q := s.coords[k];
      assert CoordShape(c, k, q);
      assert CoordOk(c, s.orch.issued, q);
      assert HasherOk(c, q, q.hashers[i]);
      DivMonotone(q.hashers[i].node, s.orch.reserved, c.nodesPerPage);
      assert ColumnOk(c, s.nodes, k, i, q.hashers[i].node);
    }
    forall k, i | 0 <= k < |c.hashers| && 0 <= i < c.hashers[k]
      ensures s.nodes[e].page[RowOf(c, x)][k][i] == Label(c, k, i, x)
    {
      assert Stored(c, s.nodes, k, i, x) == Label(c, k, i, x);
    }
  }

  lemma WriteKeepsInv(c: Config, s: State, e: nat)
    requires Wf(c) && Inv(c, s) && CanWriteDone(s, e)
    ensures Inv(c, WriteDone(c, s, e))
  {
    hide Slot, Div, BatchOk, RingsOk, EntriesOk, OrchOk, CoordsOk, PageIs, Label, SeenOk, SyncsOk, ColumnOk;
    var s' := WriteDone(c, s, e);
    var o := s.orch;
    var q := WrittenPage(c, s, e);
    forall e' | 0 <= e' < |s'.nodes| ensures PageShape(c, s'.nodes[e'].page) {
      assert PageShape(c, s.nodes[e'].page);
    }
    forall q' | 0 <= q' < PageOf(c, o.tailWrite) ensures OnDisk(c, s'.disk, q') {
      assert OnDisk(c, s.disk, q');
    }
    forall q' | PageOf(c, o.tailNode) <= q' < PageOf(c, o.tailNode) + c.pages
      ensures NodeEntryOk(c, o, s'.nodes[Slot(q', c.pages)], q', s'.disk)
    {
      assert NodeEntryOk(c, o, s.nodes[Slot(q', c.pages)], q', s.disk);
      if q' < q { SlotsDiffer(q', q, c.pages); }
      if q < q' { SlotsDiffer(q, q', c.pages); }
    }
    CoordsSame(c, s, s');
    BufferPages(c, s.nodes, s'.nodes, s.coords);
  }

  lemma CoordsSame(c: Config, s: State, s': State)
    requires Wf(c) && Shape(c, s) && Shape(c, s') && CoordsOk(c, s)
    requires s'.coords == s.coords && s'.orch == s.orch && s'.parents == s.parents
    ensures CoordsOk(c, s')
  {
    hide SeenOk, CellsOk, Slot, Div, PageShape, EntryShape, CoordOk;
    forall k | 0 <= k < |s'.coords|
      ensures CoordShape(c, k, s.coords[k])
      ensures CoordOk(c, s'.orch.issued, s'.coords[k]) && CellsOk(c, k, s'.coords[k])
        && SeenOk(c, s'.orch, s'.parents, s'.coords[k])
    {
      assert CoordShape(c, k, s.coords[k]);
      assert CoordOk(c, s.orch.issued, s.coords[k]) && CellsOk(c, k, s.coords[k])
        && SeenOk(c, s.orch, s.parents, s.coords[k]);
    }
  }

  /** The node buffer part does not depend on the entries' write state. */
  lemma BufferPages(c: Config, nodes: seq<NodeEntry>, nodes': seq<NodeEntry>, coords: seq<Coordinator>)
    requires Wf(c) && PagesShape(c, nodes) && PagesShape(c, nodes') && |coords| == |c.hashers|
    requires forall k :: 0 <= k < |coords| ==> |coords[k].hashers| == c.hashers[k]
    requires forall e :: 0 <= e < |nodes| ==> nodes'[e].page == nodes[e].page
    requires BufferOk(c, nodes, coords)
    ensures BufferOk(c, nodes', coords)
  {
    hide Slot, Div, Label, PageShape;
    forall k, i | 0 <= k < |coords| && 0 <= i < |coords[k].hashers|
      ensures ColumnOk(c, nodes', k, i, coords[k].hashers[i].node)
    {
      assert ColumnOk(c, nodes, k, i, coords[k].hashers[i].node);
      forall x | 0 <= x < coords[k].hashers[i].node && PageOf(c, coords[k].hashers[i].node) < PageOf(c, x) + c.pages
        ensures Stored(c, nodes', k, i, x) == Label(c, k, i, x)
      {
        assert Stored(c, nodes, k, i, x) == Label(c, k, i, x);
      }
    }
  }
}
