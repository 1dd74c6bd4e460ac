/** read_batch: reserving entries and setting up a node's parent pointers. */
module Pc1Issue {
  import opened Common
  import opened RingMath
  import opened Pc1Graph
  import opened Pc1Machine
  import opened Pc1Invariant
  import opened Pc1Disk
  import opened Pc1Orchestrator

  // ----- Reserving ----------------------------------------------------------------------------

  lemma {:induction false} AdvanceIs(x: nat, n: nat, m: nat)
    requires m > 0
    ensures Advance(Slot(x, m), n, m) == Slot(x + n, m)
    decreases n
  {
    if n > 0 {
      SlotNext(x, m);
      AdvanceIs(x + 1, n - 1, m);
    }
  }

  lemma {:induction false} ReservedIs(x: nat, n: nat, m: nat, d: nat)
    requires m > 0 && d < n
    ensures Reserved(Slot(x, m), n, m)[d] == Slot(x + d, m)
    decreases n
  {
    if d > 0 {
      SlotNext(x, m);
      ReservedIs(x + 1, n - 1, m, d - 1);
    }
  }

  /** Reserving n entries behind h marks exactly the n after h invalid. */
  lemma {:induction false} ReservedParents(es: seq<ParentEntry>, h: nat, n: nat, x: nat)
    requires |es| > 0 && n < |es| && h + n < x + |es| && x <= h + n
    ensures ReserveParents(es, Slot(h, |es|), n)[Slot(x, |es|)]
            == if x > h then es[Slot(x, |es|)].(valid := 0) else es[Slot(x, |es|)]
    decreases n
  {
    if n > 0 {
      SlotNext(h, |es|);
      var next := Slot(h + 1, |es|);
      var es' := es[next := es[next].(valid := 0)];
      ReservedParents(es', h + 1, n - 1, x);
      if x < h + 1 { SlotsDiffer(x, h + 1, |es|); }
      if h + 1 < x { SlotsDiffer(h + 1, x, |es|); }
    }
  }

  lemma {:induction false} ReservedNodes(es: seq<NodeEntry>, h: nat, n: nat, x: nat)
    requires |es| > 0 && n < |es| && h + n < x + |es| && x <= h + n
    ensures ReserveNodes(es, Slot(h, |es|), n)[Slot(x, |es|)]
            == if x > h then es[Slot(x, |es|)].(valid := 0) else es[Slot(x, |es|)]
    decreases n
  {
    if n > 0 {
      SlotNext(h, |es|);
      var next := Slot(h + 1, |es|);
      var es' := es[next := es[next].(valid := 0)];
      ReservedNodes(es', h + 1, n - 1, x);
      if x < h + 1 { SlotsDiffer(x, h + 1, |es|); }
      if h + 1 < x { SlotsDiffer(h + 1, x, |es|); }
    }
  }

  /** Everything but the valid counts survives a reservation. */
  lemma {:induction false} ReserveParentsKeeps(es: seq<ParentEntry>, head: nat, n: nat, e: nat)
    requires head < |es| && e < |es|
    ensures ReserveParents(es, head, n)[e] == es[e].(valid := ReserveParents(es, head, n)[e].valid)
    decreases n
  {
    if n > 0 {
      var next := Incr(head, |es|);
      ReserveParentsKeeps(es[next := es[next].(valid := 0)], next, n - 1, e);
    }
  }

  lemma {:induction false} ReserveNodesKeeps(es: seq<NodeEntry>, head: nat, n: nat, e: nat)
    requires head < |es| && e < |es|
    ensures ReserveNodes(es, head, n)[e] == es[e].(valid := ReserveNodes(es, head, n)[e].valid)
    decreases n
  {
    if n > 0 {
      var next := Incr(head, |es|);
      ReserveNodesKeeps(es[next := es[next].(valid := 0)], next, n - 1, e);
    }
  }

  lemma {:induction false} DivSub(x: nat, a: nat, m: nat)
    requires m > 0 && Slot(a, m) == 0 && a <= x
    ensures Div(x - a, m) == Div(x, m) - Div(a, m)
    ensures Slot(x - a, m) == Slot(x, m)
    decreases a
  {
    if a >= m {
      assert Slot(a - m, m) == 0;
      DivSub(x - m, a - m, m);
    }
  }

  lemma {:induction false} DivOfMultiple(k: nat, m: nat)
    requires m > 0
    ensures Slot(k * m, m) == 0 && Div(k * m, m) == k
    decreases k
  {
    if k > 0 {
      assert k * m == (k - 1) * m + m;
      assert (k - 1) * m >= 0;
      DivOfMultiple(k - 1, m);
    }
  }

  lemma SubIs(a: nat, b: nat)
    requires b <= a < WORD
    ensures Sub64(a, b) == a - b
  {
  }

  lemma MulAdd(a: nat, k: nat, m: nat, n: nat)
    requires 1 <= k <= 2 && n == (if k == 1 then m else m + m)
    ensures (a + k) * m == a * m + n
  {
  }

  lemma CacheMinIs(c: Config, issued: nat, size: nat, pageCount: nat)
    requires c.nodesPerPage > 0 && issued < WORD && RowOf(c, issued) == 0 && size <= PageOf(c, issued)
    requires 1 <= pageCount <= 2
    ensures
      var b := BufferedNodes(c, size + pageCount, BatchNodes(c, pageCount));
      b <= issued && Sub64(issued, b) == issued - b
      && RowOf(c, issued - b) == 0 && PageOf(c, issued - b) == PageOf(c, issued) - size
  {
    hide Slot, Div, Sub64;
    var npp := c.nodesPerPage;
    MulAdd(size, pageCount, npp, BatchNodes(c, pageCount));
    DivOfMultiple(size, npp);
    SlotIsMod(issued, npp);
    MulGap(npp, size, Div(issued, npp));
    assert size * npp <= issued;
    SubOfSum(size * npp, BatchNodes(c, pageCount));
    SubIs(issued, size * npp);
    DivSub(issued, size * npp, npp);
  }

  /** read_batch's cache parameters: the oldest node whose page is still in the buffer. */
  lemma CacheParameters(c: Config, s: State, pageCount: nat)
    requires Wf(c) && Shape(c, s) && CanBegin(c, s, pageCount)
    requires OrchOk(c, s.orch) && RingsOk(c, s.orch, s.nodeRing, s.parentRing)
    ensures
      var o' := BeginBatch(c, s, pageCount).orch;
      var n := BatchNodes(c, pageCount);
      && Slot(o'.cacheMin, c.nodesPerPage) == 0 && PageOf(c, o'.cacheMin) == PageOf(c, o'.tailNode)
      && o'.cacheMin <= o'.batchBase && o'.bufferCount == o'.batchBase - o'.cacheMin
      && o'.cacheMin <= o'.cacheFloor == Min(o'.cacheMin + c.parentEntries, o'.tailWrite)
      && PageOf(c, o'.issued + n) == PageOf(c, o'.issued) + pageCount
      && Slot(o'.issued + n, c.nodesPerPage) == 0
  {
    hide Slot, Div, CoordShape, PageShape, EntryShape, Sub64, BufferedNodes, ReserveParents, ReserveNodes, Advance,
      Reserved;
    var o := s.orch;
    PagePlus(c, o.issued);
    PagePlus(c, o.issued + c.nodesPerPage);
    CacheMinIs(c, o.issued, s.nodeRing.size, pageCount);
    var o' := BeginBatch(c, s, pageCount).orch;
    if o.tailWrite < o'.cacheMin {
      PageBelow(c, o.tailWrite, o'.cacheMin);
      DivMonotone(o.tailNode, o.tailWrite, c.nodesPerPage);
    }
  }

  lemma SubOfSum(a: nat, n: nat)
    requires a < WORD
    ensures Sub64(a + n, n) == a
  {
  }

  lemma BeginKeepsShape(c: Config, s: State, pageCount: nat)
    requires Wf(c) && Shape(c, s)
    ensures Shape(c, BeginBatch(c, s, pageCount))
  {
    hide Slot, Div, CoordShape, EntryShape, Sub64, ReserveNodes, ReserveParents, Advance, Reserved, RowShape;
    var s' := BeginBatch(c, s, pageCount);
    forall e | 0 <= e < |s'.nodes| ensures PageShape(c, s'.nodes[e].page) {
      assert PageShape(c, s.nodes[e].page);
      ReserveNodesKeeps(s.nodes, s.nodeRing.head, pageCount, e);
    }
    forall e | 0 <= e < |s'.parents| ensures EntryShape(s'.parents[e]) {
      ReserveParentsShape(s.parents, s.parentRing.head, BatchNodes(c, pageCount), e);
    }
  }

  lemma BeginKeepsRings(c: Config, s: State, pageCount: nat)
    requires Wf(c) && Shape(c, s) && CanBegin(c, s, pageCount)
    requires OrchOk(c, s.orch) && RingsOk(c, s.orch, s.nodeRing, s.parentRing) && BatchOk(c, s.orch)
    ensures
      var s' := BeginBatch(c, s, pageCount);
      RingsOk(c, s'.orch, s'.nodeRing, s'.parentRing) && BatchOk(c, s'.orch) && OrchOk(c, s'.orch)
  {
    hide Slot, Div, CoordShape, EntryShape, Sub64, BufferedNodes, ReserveNodes, ReserveParents, Advance, Reserved,
      PageShape;
    var o := s.orch;
    var n := BatchNodes(c, pageCount);
    var s' := BeginBatch(c, s, pageCount);
    CacheParameters(c, s, pageCount);
    AdvanceIs(o.reserved, n, c.parentEntries);
    AdvanceIs(PageOf(c, o.reserved), pageCount, c.pages);
    forall d | 0 <= d < pageCount
      ensures s'.orch.batchEntries[d] == Slot(PageOf(c, o.issued) + d, c.pages)
    {
      ReservedIs(PageOf(c, o.issued), pageCount, c.pages, d);
    }
  }

  lemma ReserveParentsShape(es: seq<ParentEntry>, head: nat, n: nat, e: nat)
    requires head < |es| && e < |es| && EntryShape(es[e])
    ensures EntryShape(ReserveParents(es, head, n)[e])
  {
    ReserveParentsKeeps(es, head, n, e);
  }

  /** What the entries a coordinator may look at hold after the reservation. */
  lemma BegunEntries(c: Config, s: State, pageCount: nat, x: nat)
    requires Wf(c) && Shape(c, s) && CanBegin(c, s, pageCount)
    requires OrchOk(c, s.orch) && RingsOk(c, s.orch, s.nodeRing, s.parentRing)
    requires s.orch.tailParents <= x < s.orch.tailParents + c.parentEntries
    ensures
      var e := s.parents[Slot(x, c.parentEntries)];
      var e' := BeginBatch(c, s, pageCount).parents[Slot(x, c.parentEntries)];
      && e'.pending == e.pending && e'.syncs == e.syncs
      && (x <= s.orch.reserved ==> e' == e)
      && (s.orch.reserved < x <= s.orch.reserved + BatchNodes(c, pageCount) ==> e'.valid == 0)
  {
    hide Slot, Div, CoordShape, EntryShape, Sub64, ReserveParents, PageShape, ReserveNodes, Advance, Reserved;
    var n := BatchNodes(c, pageCount);
    ReserveParentsKeeps(s.parents, s.parentRing.head, n, Slot(x, c.parentEntries));
    if x <= s.orch.reserved + n {
      ReservedParents(s.parents, s.orch.reserved, n, x);
    }
  }

  lemma BeginKeepsEntries(c: Config, s: State, pageCount: nat)
    requires Wf(c) && Inv(c, s) && CanBegin(c, s, pageCount)
    ensures EntriesOk(c, BeginBatch(c, s, pageCount).orch, BeginBatch(c, s, pageCount).parents)
    ensures SyncsOk(c, BeginBatch(c, s, pageCount).orch, BeginBatch(c, s, pageCount).parents, s.syncs)
    ensures forall k :: 0 <= k < |s.coords| ==>
              SeenOk(c, BeginBatch(c, s, pageCount).orch, BeginBatch(c, s, pageCount).parents, s.coords[k])
  {
    hide Slot, Div, NodesOk, Label, CoordShape, EntryShape, BufferOk, Sub64, ReserveParents, PageShape,
      ReserveNodes, Advance, Reserved, EntryOk, LiveRefs, CellsOk, HasherOk, CountPast, BatchOk, ScanOk;
    var o := s.orch;
    var s' := BeginBatch(c, s, pageCount);
    forall x | o.tailParents <= x < o.tailParents + c.parentEntries
      ensures
        var e, e' := s.parents[Slot(x, c.parentEntries)], s'.parents[Slot(x, c.parentEntries)];
        && e'.pending == e.pending && e'.syncs == e.syncs
        && (x <= o.reserved ==> e' == e)
        && (o.reserved < x <= s'.orch.reserved ==> e'.valid == 0)
    {
      BegunEntries(c, s, pageCount, x);
    }
    forall b | 0 <= b < |s.syncs|
      ensures LiveRefs(s'.parents, o.tailParents, o.issued, b) == LiveRefs(s.parents, o.tailParents, o.issued, b)
    {
      LiveRefsSame(s.parents, s'.parents, o.tailParents, o.issued, b);
    }
    forall k | 0 <= k < |s.coords| ensures SeenOk(c, s'.orch, s'.parents, s.coords[k]) {
      BegunSeen(c, s, pageCount, k);
    }
  }

  lemma BegunSeen(c: Config, s: State, pageCount: nat, k: nat)
    requires Wf(c) && Shape(c, s) && CanBegin(c, s, pageCount) && CoordsOk(c, s) && k < |s.coords|
    requires OrchOk(c, s.orch) && RingsOk(c, s.orch, s.nodeRing, s.parentRing)
    ensures SeenOk(c, BeginBatch(c, s, pageCount).orch, BeginBatch(c, s, pageCount).parents, s.coords[k])
  {
    hide Slot, Div, EntryShape, Sub64, ReserveParents, PageShape, ReserveNodes, Advance, Reserved,
      CellsOk, HasherOk, CountPast;
    var s' := BeginBatch(c, s, pageCount);
    assert CoordShape(c, k, s.coords[k]);
    assert CoordOk(c, s.orch.issued, s.coords[k]);
    assert SeenOk(c, s.orch, s.parents, s.coords[k]);
    forall y | s.orch.tailParents <= y < s.coords[k].node
      ensures s'.parents[Slot(y, c.parentEntries)].pending == {}
    {
      BegunEntries(c, s, pageCount, y);
    }
  }

  lemma BeginKeepsNodes(c: Config, s: State, pageCount: nat)
    requires Wf(c) && Inv(c, s) && CanBegin(c, s, pageCount)
    ensures NodesOk(c, BeginBatch(c, s, pageCount).orch, BeginBatch(c, s, pageCount).nodes, s.disk)
  {
    hide Slot, Div, Label, CoordShape, EntryShape, BufferOk, Sub64, ReserveParents, PageShape,
      ReserveNodes, Advance, Reserved, EntriesOk, SyncsOk, CoordsOk, OnDisk, RowShape;
    var o := s.orch;
    var s' := BeginBatch(c, s, pageCount);
    var p := PageOf(c, o.reserved);
    CacheParameters(c, s, pageCount);
    forall q | PageOf(c, o.tailNode) <= q < PageOf(c, o.tailNode) + c.pages
      ensures NodeEntryOk(c, s'.orch, s'.nodes[Slot(q, c.pages)], q, s.disk)
    {
      assert NodeEntryOk(c, o, s.nodes[Slot(q, c.pages)], q, s.disk);
      if q <= p + pageCount {
        ReservedNodes(s.nodes, p, pageCount, q);
      } else {
        ReserveNodesKeeps(s.nodes, s.nodeRing.head, pageCount, Slot(q, c.pages));
      }
      DivMonotone(o.headWrite, o.reserved, c.nodesPerPage);
    }
  }

  lemma BeginKeepsInv(c: Config, s: State, pageCount: nat)
    requires Wf(c) && Inv(c, s) && CanBegin(c, s, pageCount)
    ensures Inv(c, BeginBatch(c, s, pageCount))
  {
    hide Slot, Div, Label, CoordShape, EntryShape, Sub64, ReserveParents, PageShape, OrchOk,
      ReserveNodes, Advance, Reserved, EntriesOk, SyncsOk, CoordsOk, NodesOk, RingsOk, BatchOk, ColumnOk, SeenOk;
    var s' := BeginBatch(c, s, pageCount);
    BeginKeepsShape(c, s, pageCount);
    BeginKeepsRings(c, s, pageCount);
    BeginKeepsEntries(c, s, pageCount);
    BeginKeepsNodes(c, s, pageCount);
    forall e | 0 <= e < |s.nodes| ensures s'.nodes[e].page == s.nodes[e].page {
      ReserveNodesKeeps(s.nodes, s.nodeRing.head, pageCount, e);
    }
    ShapeHashers(c, s);
    BufferPages(c, s.nodes, s'.nodes, s.coords);
    CoordsStay(c, s, s');
  }

  // ----- Issuing a node -----------------------------------------------------------------------

  /** What the batch parameters say about the node being issued and one of its parents. */
  ghost predicate Issuing(c: Config, s: State)
    requires Wf(c)
  {
    && Shape(c, s) && OrchOk(c, s.orch) && RingsOk(c, s.orch, s.nodeRing, s.parentRing) && BatchOk(c, s.orch)
    && CanIssue(s)
  }

  /** The check read_batch makes on the cache offset never fires, and the entry it computes is the parent's. */
  lemma CacheOffset(c: Config, s: State, x: nat)
    requires Wf(c) && Issuing(c, s) && Cached(s, x) && x < s.orch.issued
    ensures Sub64(x, s.orch.cacheMin) < s.orch.bufferCount + (s.orch.issued - s.orch.batchBase)
    ensures CacheEntry(c, s, x) == EntryOf(c, x)
    ensures InSpan(c, x, s.orch.issued)
  {
    hide Slot, Div, CoordShape, EntryShape, PageShape, Sub64;
    var o := s.orch;
    SubIs(x, o.cacheMin);
    DivSub(x, o.cacheMin, c.nodesPerPage);
    DivMonotone(o.cacheMin, x, c.nodesPerPage);
    DivMonotone(x, o.issued, c.nodesPerPage);
    DivMonotone(o.issued, o.reserved, c.nodesPerPage);
    SlotAdd(PageOf(c, o.tailNode), PageOf(c, x) - PageOf(c, o.cacheMin), c.pages);
  }

  /** What a freshly issued entry says of one parent. */
  lemma IssuedAt(c: Config, s: State, was: ParentEntry, j: nat)
    requires Wf(c) && NodeOf(c, s.orch.issued) > 0 && 0 < j < PARENTS && EntryShape(was)
    ensures
      var e, y := IssuedEntry(c, s, was), s.orch.issued;
      && EntryShape(e) && e.ptrs[j] == ParentPtr(c, s, y, j) && e.syncs[j] == ParentSync(c, s, y, j)
      && e.requests[j - 1] == ParentRequest(c, s, y, j) && (j - 1 in e.pending <==> e.requests[j - 1].Read?)
  {
    hide Slot, Div, Sub64, ParentPtr, ParentSync, ParentRequest, LocalSpan;
  }

  lemma IssuedPtr(c: Config, s: State, j: nat)
    requires Wf(c) && Issuing(c, s) && NodeOf(c, s.orch.issued) > 0 && 0 < j < PARENTS
    ensures
      PtrOk(c, IssuedEntry(c, s, s.parents[s.orch.parentEntry]), s.orch.issued, j, s.orch.tailWrite)
  {
    hide Slot, Div, CoordShape, PageShape, Sub64, RowIs, LocalSpan, IssuedEntry;
    var y := s.orch.issued;
    var x := ParentId(c, y, j);
    ParentBefore(c, y, j);
    SubIs(y, x);
    SlotOfSlot(x, c.layerSize, c.nodesPerPage);
    if Cached(s, x) { CacheOffset(c, s, x); }
    assert EntryShape(s.parents[s.orch.parentEntry]);
    IssuedAt(c, s, s.parents[s.orch.parentEntry], j);
  }

  lemma IssuedEntryOk(c: Config, s: State)
    requires Wf(c) && Issuing(c, s) && EntriesOk(c, s.orch, s.parents)
    ensures EntryOk(c, IssuedEntry(c, s, s.parents[s.orch.parentEntry]), s.orch.issued, s.orch.tailWrite)
  {
    hide Slot, Div, CoordShape, PageShape, Sub64, PtrOk, ParentPtr, ParentSync, ParentRequest, ReadSlots;
    var o := s.orch;
    var y := o.issued;
    assert EntryShape(s.parents[o.parentEntry]);
    assert s.parents[Slot(y, c.parentEntries)].valid == 0;
    if NodeOf(c, y) > 0 {
      forall j | 0 < j < PARENTS
        ensures PtrOk(c, IssuedEntry(c, s, s.parents[o.parentEntry]), y, j, o.tailWrite)
      {
        IssuedPtr(c, s, j);
      }
      ZeroSlot(c.layerSize);
      DivMonotone(y - 1, y, c.nodesPerPage);
    }
  }

  lemma ZeroSlot(m: nat)
    requires m > 0
    ensures Slot(0, m) == 0
  {
  }

  lemma IssueKeepsOrch(c: Config, s: State)
    requires Wf(c) && Issuing(c, s)
    ensures
      var s' := IssueNode(c, s);
      Shape(c, s') && OrchOk(c, s'.orch) && RingsOk(c, s'.orch, s'.nodeRing, s'.parentRing) && BatchOk(c, s'.orch)
  {
    hide Slot, Div, CoordShape, PageShape, Sub64, ParentPtr, ParentSync, ParentRequest, ReadSlots, Bump;
    var s' := IssueNode(c, s);
    var o := s.orch;
    forall e | 0 <= e < |s'.parents| ensures EntryShape(s'.parents[e]) {
      assert EntryShape(s.parents[e]);
    }
    SubIs(o.issued, o.batchBase);
    DivSub(o.issued, o.batchBase, c.nodesPerPage);
    PageBelow(c, o.issued, o.reserved);
    DivMonotone(o.batchBase, o.issued, c.nodesPerPage);
    SlotOfSlot(o.issued, c.layerSize, c.nodesPerPage);
    SlotNext(o.issued, c.parentEntries);
  }

  lemma IssueKeepsEntries(c: Config, s: State)
    requires Wf(c) && Inv(c, s) && CanIssue(s)
    ensures EntriesOk(c, IssueNode(c, s).orch, IssueNode(c, s).parents)
    ensures forall k :: 0 <= k < |s.coords| ==>
              SeenOk(c, IssueNode(c, s).orch, IssueNode(c, s).parents, s.coords[k])
  {
    hide Slot, Div, Sub64, CellsOk, CoordShape, PageShape, IssuedEntry, EntryOk, Bump, NodesOk, SyncsOk, BufferOk,
      HasherOk, CountPast, EntryShape;
    var s' := IssueNode(c, s);
    var o := s.orch;
    IssuedEntryOk(c, s);
    SlotDiffersFrom(o.issued, o.tailParents, c.parentEntries);
    forall k | 0 <= k < |s.coords| ensures SeenOk(c, s'.orch, s'.parents, s.coords[k]) {
      IssueSeen(c, s, k);
    }
  }

  lemma SlotDiffersFrom(y: nat, lo: nat, m: nat)
    requires m > 0 && lo <= y < lo + m
    ensures forall x :: lo <= x < lo + m && x != y ==> Slot(x, m) != Slot(y, m)
  {
    hide Slot;
    forall x | lo <= x < lo + m && x != y ensures Slot(x, m) != Slot(y, m) {
      if x < y { SlotsDiffer(x, y, m); } else { SlotsDiffer(y, x, m); }
    }
  }

  lemma IssueSeen(c: Config, s: State, k: nat)
    requires Wf(c) && Issuing(c, s) && CoordsOk(c, s) && k < |s.coords|
    ensures SeenOk(c, IssueNode(c, s).orch, IssueNode(c, s).parents, s.coords[k])
  {
    hide Slot, Div, Sub64, CellsOk, PageShape, IssuedEntry, Bump, HasherOk, CountPast, EntryShape;
    assert CoordShape(c, k, s.coords[k]);
    assert CoordOk(c, s.orch.issued, s.coords[k]);
    assert SeenOk(c, s.orch, s.parents, s.coords[k]);
    SlotDiffersFrom(s.orch.issued, s.orch.tailParents, c.parentEntries);
  }

  lemma IssueKeepsSyncs(c: Config, s: State)
    requires Wf(c) && Issuing(c, s) && SyncsOk(c, s.orch, s.parents, s.syncs)
    ensures SyncsOk(c, IssueNode(c, s).orch, IssueNode(c, s).parents, IssueNode(c, s).syncs)
  {
    hide Slot, Div, Sub64, CoordShape, PageShape, IssuedEntry, Bump, EntryShape, Marks;
    var s' := IssueNode(c, s);
    var o := s.orch;
    var marks := s'.parents[o.parentEntry].syncs;
    SlotDiffersFrom(o.issued, o.tailParents, c.parentEntries);
    forall b | 0 <= b < |s'.syncs|
      ensures s'.syncs[b].references - s'.syncs[b].consumed == LiveRefs(s'.parents, o.tailParents, o.issued + 1, b)
    {
      BumpCounts(s.syncs, marks, 1, 0, b);
      LiveRefsSame(s.parents, s'.parents, o.tailParents, o.issued, b);
      assert s.syncs[b].references - s.syncs[b].consumed == LiveRefs(s.parents, o.tailParents, o.issued, b);
    }
  }

  lemma IssueKeepsInv(c: Config, s: State)
    requires Wf(c) && Inv(c, s) && CanIssue(s)
    ensures Inv(c, IssueNode(c, s))
  {
    hide Slot, Div, Label, CoordShape, EntryShape, Sub64, PageShape, OrchOk, Bump, IssuedEntry,
      EntriesOk, SyncsOk, CoordsOk, RingsOk, BatchOk, BufferOk, NodesOk, SeenOk;
    var s' := IssueNode(c, s);
    IssueKeepsOrch(c, s);
    IssueKeepsEntries(c, s);
    IssueKeepsSyncs(c, s);
    NodesFrame(c, s.orch, s'.orch, s.nodes, s.disk);
    CoordsStay(c, s, s');
  }
}
