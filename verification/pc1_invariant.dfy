/** The inductive invariant of the PC1 engine, in parts. */
module Pc1Invariant {
  import opened Common
  import opened RingMath
  import opened Pc1Graph
  import opened Pc1Machine

  // ----- Cursors and ring indices -----------------------------------------------------------

  ghost predicate OrchOk(c: Config, o: Orchestrator)
    requires Wf(c)
  {
    && o.tailNode <= o.tailWrite <= o.headWrite <= o.minHash <= o.issued <= o.reserved <= c.total
    && o.batchBase <= o.issued
    && Slot(o.tailWrite, c.nodesPerPage) == 0 && Slot(o.headWrite, c.nodesPerPage) == 0
    && Slot(o.reserved, c.nodesPerPage) == 0 && Slot(o.batchBase, c.nodesPerPage) == 0
    && o.minNode <= o.minHash && o.minNode <= o.tailWrite
    && o.tailParents <= o.minHash
    && o.outstanding == PageOf(c, o.headWrite) - PageOf(c, o.tailWrite)
  }

  ghost predicate CounterOk(c: Config, abs: nat, idx: nat)
    requires Wf(c)
  {
    Slot(idx, c.nodesPerPage) == 0 && Div(idx, c.nodesPerPage) == EntryOf(c, abs)
  }

  ghost predicate RingsOk(c: Config, o: Orchestrator, nodeRing: Ring, parentRing: Ring)
    requires Wf(c)
  {
    && o.tailNode <= o.reserved && o.tailParents <= o.reserved
    && nodeRing.tail == EntryOf(c, o.tailNode) && nodeRing.head == EntryOf(c, o.reserved)
    && nodeRing.size == PageOf(c, o.reserved) - PageOf(c, o.tailNode) <= c.pages - 1
    && parentRing.tail == Slot(o.tailParents, c.parentEntries)
    && parentRing.head == Slot(o.reserved, c.parentEntries)
    && parentRing.size == o.reserved - o.tailParents <= c.parentEntries - 1
    && CounterOk(c, o.tailWrite, o.tailWriteIdx) && CounterOk(c, o.headWrite, o.headWriteIdx)
  }

  /** What read_batch computed on entry, as long as it is issuing nodes. */
  ghost predicate BatchOk(c: Config, o: Orchestrator)
    requires Wf(c)
  {
    && (o.issued > 0 ==> o.prev == NodePtr(EntryOf(c, o.issued - 1), RowOf(c, o.issued - 1)))
    && (o.issued < o.reserved ==>
        && o.parentEntry == Slot(o.issued, c.parentEntries)
        && PageOf(c, o.batchBase) + |o.batchEntries| == PageOf(c, o.reserved)
        && (forall d :: 0 <= d < |o.batchEntries| ==>
              o.batchEntries[d] == Slot(PageOf(c, o.batchBase) + d, c.pages))
        && Slot(o.cacheMin, c.nodesPerPage) == 0 && PageOf(c, o.cacheMin) == PageOf(c, o.tailNode)
        && o.cacheMin <= o.batchBase && o.bufferCount == o.batchBase - o.cacheMin
        && o.cacheMin <= o.cacheFloor == Min(o.cacheMin + c.parentEntries, o.tailWrite))
  }

  ghost predicate ScanOk(c: Config, o: Orchestrator, coords: seq<Coordinator>) {
    && o.scanned < |coords|
    && (o.scanned > 0 ==> o.minHash <= o.scanMin)
    && (forall k :: 0 <= k < |coords| ==> o.minHash <= coords[k].published)
    && (forall k :: 0 <= k < o.scanned ==> o.scanMin <= coords[k].published)
  }

  // ----- Coordinators and hashers -----------------------------------------------------------

  /** Batches the hasher has reported done. */
  function Finished(c: Config, h: Hasher): nat
    requires c.batchSize > 0
  {
    if h.pos <= h.node then Div(h.node - h.pos, c.batchSize) else 0
  }

  /** How many hashers have reported batch b done. */
  function CountPast(c: Config, hs: seq<Hasher>, b: nat): (r: nat)
    requires c.batchSize > 0
    ensures r <= |hs|
  {
    if hs == [] then 0
    else CountPast(c, hs[..|hs| - 1], b) + (if Finished(c, hs[|hs| - 1]) > b then 1 else 0)
  }

  ghost predicate HasherOk(c: Config, q: Coordinator, h: Hasher)
    requires Wf(c)
  {
    && h.pos <= c.batchSize && h.pos <= h.node
    && Slot(h.node - h.pos, c.batchSize) == 0
    && q.completed <= h.node - h.pos && h.node <= q.nextValid
    && (h.pos > 0 ==> h.node - h.pos + c.batchSize <= q.nextValid)
    && h.valid <= q.nextValid && Slot(h.valid, c.batchSize) == 0
    && h.ringIdx == Slot(Finished(c, h), c.batchCount)
    && h.nodeIdx == EntryOf(c, h.node)
  }

  ghost predicate CoordOk(c: Config, issued: nat, q: Coordinator)
    requires Wf(c) && |q.done| == c.batchCount
  {
    var first := Div(q.completed, c.batchSize);
    var open := Div(q.nextValid, c.batchSize);
    var extra := if q.filling then 1 else 0;
    && q.published <= q.completed <= q.nextValid <= q.node <= issued
    && q.idx == Slot(q.node, c.parentEntries)
    && Slot(q.completed, c.batchSize) == 0 && Slot(q.nextValid, c.batchSize) == 0
    && (if q.filling then q.node == q.nextValid + q.count && q.count < c.batchSize && q.batchIdx == Slot(open,
          c.batchCount)
        else q.node == q.nextValid)
    && first <= open
    && q.ring.tail == Slot(first, c.batchCount)
    && q.ring.head == Slot(open + extra, c.batchCount)
    && q.ring.size == open + extra - first <= c.batchCount - 1
    && (forall b :: first <= b < first + c.batchCount ==>
          q.done[Slot(b, c.batchCount)] == CountPast(c, q.hashers, b))
    && (forall i :: 0 <= i < |q.hashers| ==> HasherOk(c, q, q.hashers[i]))
  }

  // ----- Parent entries ---------------------------------------------------------------------

  ghost predicate RowIs(c: Config, r: Row, x: nat)
    requires Wf(c)
  {
    RowShape(c, r) &&
    forall k, i :: 0 <= k < |c.hashers| && 0 <= i < c.hashers[k] ==> r[k][i] == Label(c, k, i, x)
  }

  /** Node x will not be overwritten in the node buffer before node y has been hashed. */
  ghost predicate InSpan(c: Config, x: nat, y: nat)
    requires Wf(c)
  {
    x < y && PageOf(c, y) < PageOf(c, x) + c.pages
  }

  ghost predicate PtrOk(c: Config, e: ParentEntry, y: nat, j: nat, tailWrite: nat)
    requires Wf(c) && EntryShape(e) && NodeOf(c, y) > 0 && 0 < j < PARENTS
  {
    var x := ParentId(c, y, j);
    match e.ptrs[j]
    case Null => false
    case NodePtr(entry, row) =>
      && entry == EntryOf(c, x) && row == RowOf(c, x) && InSpan(c, x, y)
      && e.requests[j - 1] == Nop && j - 1 !in e.pending
      && e.syncs[j] == (if y - x < LocalSpan(c) then LocalNode else NodeIdx(entry))
    case ReadPtr(entry, slot, row) =>
      && entry == Slot(y, c.parentEntries) && slot == j - 1 && row == RowOf(c, x)
      && e.syncs[j] == NotNodeBuffer && e.requests[j - 1] == Read(x)
      && x < tailWrite
      && (j - 1 !in e.pending ==>
            row < |e.pages[j - 1]| && RowIs(c, e.pages[j - 1][row], x))
  }

  ghost predicate EntryOk(c: Config, e: ParentEntry, y: nat, tailWrite: nat)
    requires Wf(c)
  {
    && EntryShape(e)
    && e.valid + |e.pending| == READS
    && (forall j :: j in e.pending ==> j < READS)
    && (if NodeOf(c, y) == 0 then
          e.pending == {} && forall j :: 0 <= j < PARENTS ==> e.ptrs[j] == Null && e.syncs[j] == NotNodeBuffer
        else
          && e.ptrs[0] == NodePtr(EntryOf(c, y - 1), RowOf(c, y - 1)) && e.syncs[0] == LocalNode
          && InSpan(c, y - 1, y)
          && forall j :: 0 < j < PARENTS ==> PtrOk(c, e, y, j, tailWrite))
  }

  ghost predicate EntriesOk(c: Config, o: Orchestrator, parents: seq<ParentEntry>)
    requires Wf(c) && |parents| == c.parentEntries
  {
    && (forall y :: o.tailParents <= y < o.issued ==>
          EntryOk(c, parents[Slot(y, c.parentEntries)], y, o.tailWrite))
    && (forall y :: o.issued <= y <= o.reserved ==> parents[Slot(y, c.parentEntries)].valid == 0)
    && (forall y :: o.issued <= y < o.tailParents + c.parentEntries ==>
          parents[Slot(y, c.parentEntries)].pending == {})
  }

  /** Everything a coordinator has passed had been read. */
  ghost predicate SeenOk(c: Config, o: Orchestrator, parents: seq<ParentEntry>, q: Coordinator)
    requires Wf(c) && |parents| == c.parentEntries
  {
    forall y :: o.tailParents <= y < q.node ==> parents[Slot(y, c.parentEntries)].pending == {}
  }

  // ----- Node buffer and disk ---------------------------------------------------------------

  ghost predicate PageIs(c: Config, p: Page, q: nat)
    requires Wf(c)
  {
    PageShape(c, p) && forall x: nat :: PageOf(c, x) == q ==> RowIs(c, p[RowOf(c, x)], x)
  }

  ghost predicate OnDisk(c: Config, disk: map<nat, Page>, q: nat)
    requires Wf(c)
  {
    q in disk && PageIs(c, disk[q], q)
  }

  ghost predicate NodeEntryOk(c: Config, o: Orchestrator, e: NodeEntry, q: nat, disk: map<nat, Page>)
    requires Wf(c)
  {
    if q < PageOf(c, o.tailWrite) || q > PageOf(c, o.reserved) then !e.writing
    else if q < PageOf(c, o.headWrite) then
      if e.writing then e.valid == 0 && PageOf(c, e.node) == q && Slot(e.node, c.nodesPerPage) == 0
      else e.valid > 0 && OnDisk(c, disk, q)
    else !e.writing && e.valid == 0
  }

  ghost predicate NodesOk(c: Config, o: Orchestrator, nodes: seq<NodeEntry>, disk: map<nat, Page>)
    requires Wf(c) && |nodes| == c.pages
  {
    && (forall q :: 0 <= q < PageOf(c, o.tailWrite) ==> OnDisk(c, disk, q))
    && (forall q :: PageOf(c, o.tailNode) <= q < PageOf(c, o.tailNode) + c.pages ==>
          NodeEntryOk(c, o, nodes[Slot(q, c.pages)], q, disk))
  }

  ghost predicate PagesShape(c: Config, nodes: seq<NodeEntry>) {
    |nodes| == c.pages && forall e :: 0 <= e < |nodes| ==> PageShape(c, nodes[e].page)
  }

  /** The label in the node buffer where node x belongs. */
  ghost function Stored(c: Config, nodes: seq<NodeEntry>, k: nat, i: nat, x: nat): Digest
    requires c.nodesPerPage > 0 && c.pages > 0
    requires PagesShape(c, nodes) && k < |c.hashers| && i < c.hashers[k]
  {
    var e, r := EntryOf(c, x), RowOf(c, x);
    assert PageShape(c, nodes[e].page);
    assert RowShape(c, nodes[e].page[r]);
    nodes[e].page[r][k][i]
  }

  /** The last ring's worth of what a hasher wrote is in the node buffer. */
  ghost predicate ColumnOk(c: Config, nodes: seq<NodeEntry>, k: nat, i: nat, node: nat)
    requires Wf(c) && PagesShape(c, nodes) && k < |c.hashers| && i < c.hashers[k]
  {
    forall x :: 0 <= x < node && PageOf(c, node) < PageOf(c, x) + c.pages ==>
      Stored(c, nodes, k, i, x) == Label(c, k, i, x)
  }

  ghost predicate BufferOk(c: Config, nodes: seq<NodeEntry>, coords: seq<Coordinator>)
    requires Wf(c) && PagesShape(c, nodes)
    requires |coords| == |c.hashers|
    requires forall k :: 0 <= k < |coords| ==> |coords[k].hashers| == c.hashers[k]
  {
    forall k, i :: 0 <= k < |coords| && 0 <= i < |coords[k].hashers| ==>
      ColumnOk(c, nodes, k, i, coords[k].hashers[i].node)
  }

  // ----- Batches handed to the hashers --------------------------------------------------------

  ghost predicate CellOk(c: Config, k: nat, cell: Cell, y: nat)
    requires Wf(c) && k < |c.hashers|
  {
    |cell.ptrs| == PARENTS && |cell.data| == PARENTS &&
    forall j :: 0 <= j < ParentCount(c, y) ==> SourceOk(c, k, cell, y, j)
  }

  ghost predicate SourceOk(c: Config, k: nat, cell: Cell, y: nat, j: nat)
    requires Wf(c) && k < |c.hashers| && |cell.ptrs| == PARENTS && |cell.data| == PARENTS
    requires j < ParentCount(c, y)
  {
    var x := ParentId(c, y, j);
    if cell.ptrs[j] == Null then
      |cell.data[j]| == c.hashers[k] &&
      forall i :: 0 <= i < c.hashers[k] ==> cell.data[j][i] == Label(c, k, i, x)
    else
      cell.ptrs[j] == NodePtr(EntryOf(c, x), RowOf(c, x)) && InSpan(c, x, y)
  }

  ghost predicate CellsOk(c: Config, k: nat, q: Coordinator)
    requires Wf(c) && k < |c.hashers| && CoordShape(c, k, q)
  {
    forall y :: q.completed <= y < q.node ==>
      CellOk(c, k, q.cells[Slot(Div(y, c.batchSize), c.batchCount)][Slot(y, c.batchSize)], y)
  }

  // ----- Reference counts -------------------------------------------------------------------

  /** Marks that fall into sync batch b. */
  function Marks(marks: seq<Sync>, b: nat): (r: nat) {
    if marks == [] then 0
    else Marks(marks[..|marks| - 1], b) +
         (var m := marks[|marks| - 1]; if m.NodeIdx? && m.entry / SYNC_BATCH == b then 1 else 0)
  }

  /** Pointers of the live parent entries lo..hi that fall into sync batch b. */
  function LiveRefs(parents: seq<ParentEntry>, lo: nat, hi: nat, b: nat): nat
    requires |parents| > 0
    decreases hi
  {
    if hi <= lo then 0
    else LiveRefs(parents, lo, hi - 1, b) + Marks(parents[Slot(hi - 1, |parents|)].syncs, b)
  }

  ghost predicate SyncsOk(c: Config, o: Orchestrator, parents: seq<ParentEntry>, syncs: seq<SyncCount>)
    requires |parents| > 0
  {
    && c.pages <= SYNC_BATCH * |syncs|
    && forall b :: 0 <= b < |syncs| ==>
         syncs[b].references - syncs[b].consumed == LiveRefs(parents, o.tailParents, o.issued, b)
  }

  // ----- The invariant ------------------------------------------------------------------------

  ghost predicate Inv(c: Config, s: State)
    requires Wf(c)
  {
    && Shape(c, s)
    && OrchOk(c, s.orch) && RingsOk(c, s.orch, s.nodeRing, s.parentRing) && BatchOk(c, s.orch) && ScanOk(c, s.orch,
          s.coords)
    && CoordsOk(c, s)
    && EntriesOk(c, s.orch, s.parents)
    && NodesOk(c, s.orch, s.nodes, s.disk)
    && BufferOk(c, s.nodes, s.coords)
    && SyncsOk(c, s.orch, s.parents, s.syncs)
  }

  ghost predicate CoordsOk(c: Config, s: State)
    requires Wf(c) && Shape(c, s)
  {
    forall k :: 0 <= k < |s.coords| ==>
      && CoordOk(c, s.orch.issued, s.coords[k])
      && SeenOk(c, s.orch, s.parents, s.coords[k])
      && CellsOk(c, k, s.coords[k])
  }
}
