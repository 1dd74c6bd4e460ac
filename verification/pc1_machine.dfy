/** The PC1 engine as a step system: one orchestrator, any number of coordinators
  * with their hashers, and disk requests that complete in any order.
  */
module Pc1Machine {
  import opened Common
  import opened RingMath
  import opened Pc1Graph

  type Row = seq<seq<Digest>>             // parallel_node_t: a label for every hasher of every coordinator
  type Page = seq<Row>

  /** Where a parent pointer points: nowhere, the node buffer, or a page read from disk. */
  datatype Ptr = Null | NodePtr(entry: nat, row: nat) | ReadPtr(entry: nat, slot: nat, row: nat)
  datatype Sync = NotNodeBuffer | LocalNode | NodeIdx(entry: nat)
  datatype Request = Nop | Read(node: nat)

  /** One entry of the parent buffer with its parallel arrays; `pending` are the reads not completed. */
  datatype ParentEntry = ParentEntry(
    valid: nat, ptrs: seq<Ptr>, syncs: seq<Sync>, requests: seq<Request>, pending: set<nat>, pages: seq<Page>)

  /** One entry of the node buffer; `writing` holds while its write is with the disk. */
  datatype NodeEntry = NodeEntry(page: Page, valid: nat, writing: bool, node: nat)

  /** node_sync_t, kept for every SYNC_BATCH entries of the node buffer. */
  datatype SyncCount = SyncCount(references: int, consumed: int)
  const SYNC_BATCH := 4

  datatype Ring = Ring(head: nat, tail: nat, size: nat)

  datatype Orchestrator = Orchestrator(
    issued: nat,                          // parent_iter.get_node()
    batchBase: nat, reserved: nat,        // first node of the batch, and the node after its last
    batchEntries: seq<nat>,               // node_batch_ptrs
    parentEntry: nat,                     // parent_buffer_id
    cacheMin: nat, cacheFloor: nat, bufferCount: nat,
    prev: Ptr,                            // prev_hashed_node
    tailNode: nat, tailParents: nat,
    tailWrite: nat, tailWriteIdx: nat,    // tail_node_write: abs and _idx
    headWrite: nat, headWriteIdx: nat,
    minHash: nat, minNode: nat,
    scanned: nat, scanMin: nat,           // coordinators loaded so far and their least value
    outstanding: int)

  /** What a coordinator hands on for one node: a pointer, or else a copied label per hasher. */
  datatype Cell = Cell(ptrs: seq<Ptr>, data: seq<seq<Digest>>)

  datatype Hasher = Hasher(
    node: nat,                            // thr_node
    valid: nat,                           // valid_nodes, as last loaded
    ringIdx: nat,                         // coord_idx
    nodeIdx: nat,
    pos: nat)                             // position in the batch

  datatype Coordinator = Coordinator(
    node: nat, completed: nat,
    published: nat,                       // system.coordinator_node[id]
    nextValid: nat,                       // coord_next_valid
    idx: nat,                             // index into the parent buffer
    ring: Ring,                           // coord_ring
    filling: bool, batchIdx: nat, count: nat,
    done: seq<nat>,                       // coord_done_count
    cells: seq<seq<Cell>>,
    hashers: seq<Hasher>)

  datatype State = State(
    orch: Orchestrator,
    nodeRing: Ring, nodes: seq<NodeEntry>, syncs: seq<SyncCount>,
    parentRing: Ring, parents: seq<ParentEntry>,
    disk: map<nat, Page>,
    coords: seq<Coordinator>)

  datatype Step =
    | Scan | Begin(pageCount: nat) | Issue
    | Submit | Written | DropParent | DropNode
    | ReadArrives(entry: nat, slot: nat) | WriteArrives(entry: nat)
    | Copy(coord: nat) | TakeBack(coord: nat) | Open(coord: nat) | Tell(coord: nat)
    | Look(coord: nat, hasher: nat) | Hash(coord: nat, hasher: nat) | Finish(coord: nat, hasher: nat)

  // ----- Shapes ---------------------------------------------------------------------------

  ghost predicate RowShape(c: Config, r: Row) {
    |r| == |c.hashers| && forall k :: 0 <= k < |r| ==> |r[k]| == c.hashers[k]
  }

  ghost predicate PageShape(c: Config, p: Page) {
    |p| == c.nodesPerPage && forall i :: 0 <= i < |p| ==> RowShape(c, p[i])
  }

  predicate EntryShape(e: ParentEntry) {
    |e.ptrs| == PARENTS && |e.syncs| == PARENTS && |e.requests| == READS && |e.pages| == READS
  }

  predicate CoordShape(c: Config, k: nat, q: Coordinator)
    requires k < |c.hashers|
  {
    && q.idx < c.parentEntries && q.batchIdx < c.batchCount
    && q.ring.head < c.batchCount && q.ring.tail < c.batchCount
    && |q.done| == c.batchCount && |q.cells| == c.batchCount
    && (forall b :: 0 <= b < |q.cells| ==> |q.cells[b]| == c.batchSize)
    && (forall b, i :: 0 <= b < |q.cells| && 0 <= i < |q.cells[b]| ==>
          |q.cells[b][i].ptrs| == PARENTS && |q.cells[b][i].data| == PARENTS)
    && |q.hashers| == c.hashers[k]
    && (forall i :: 0 <= i < |q.hashers| ==>
          q.hashers[i].ringIdx < c.batchCount && q.hashers[i].nodeIdx < c.pages)
  }

  ghost predicate Shape(c: Config, s: State) {
    && s.nodeRing.head < c.pages && s.nodeRing.tail < c.pages && |s.nodes| == c.pages
    && (forall e :: 0 <= e < |s.nodes| ==> PageShape(c, s.nodes[e].page))
    && s.parentRing.head < c.parentEntries && s.parentRing.tail < c.parentEntries
    && |s.parents| == c.parentEntries
    && (forall e :: 0 <= e < |s.parents| ==> EntryShape(s.parents[e]))
    && s.orch.parentEntry < c.parentEntries
    && |s.coords| == |c.hashers|
    && (forall k :: 0 <= k < |s.coords| ==> CoordShape(c, k, s.coords[k]))
  }

  // ----- Orchestrator ---------------------------------------------------------------------

  /** Subtraction of 64-bit unsigned values. */
  function Sub64(a: int, b: int): nat { (a - b) % WORD }

  function BatchNodes(c: Config, pageCount: nat): nat {
    if pageCount == 1 then c.nodesPerPage else c.nodesPerPage + c.nodesPerPage
  }

  /** COORD_BATCH_NODE_COUNT: parents nearer than this are passed on by pointer. */
  function LocalSpan(c: Config): nat { c.batchSize * c.batchCount }

  /** Not in the middle of read_batch; the orchestrator is a single thread. */
  predicate Idle(s: State) { s.orch.issued == s.orch.reserved }

  /** Reload one coordinator's progress; the minimum counts once all have been loaded. */
  predicate CanScan(s: State) { Idle(s) && s.orch.scanned < |s.coords| }

  function ScanHashed(s: State): State
    requires CanScan(s)
  {
    var o := s.orch;
    var p := s.coords[o.scanned].published;
    var m := if o.scanned == 0 then p else Min(o.scanMin, p);
    if o.scanned + 1 == |s.coords| then
      s.(orch := o.(scanned := 0, scanMin := m, minHash := m, minNode := Min(m, o.tailWrite)))
    else
      s.(orch := o.(scanned := o.scanned + 1, scanMin := m))
  }

  /** ring_buffer_t::reserve_batch_nocheck: the entry after each reserved one is marked invalid. */
  function ReserveParents(es: seq<ParentEntry>, head: nat, n: nat): (r: seq<ParentEntry>)
    requires head < |es|
    ensures |r| == |es|
    decreases n
  {
    if n == 0 then es
    else
      var next := Incr(head, |es|);
      ReserveParents(es[next := es[next].(valid := 0)], next, n - 1)
  }

  function ReserveNodes(es: seq<NodeEntry>, head: nat, n: nat): (r: seq<NodeEntry>)
    requires head < |es|
    ensures |r| == |es|
    decreases n
  {
    if n == 0 then es
    else
      var next := Incr(head, |es|);
      ReserveNodes(es[next := es[next].(valid := 0)], next, n - 1)
  }

  function Advance(i: nat, n: nat, m: nat): (r: nat)
    requires i < m
    ensures r < m
    decreases n
  {
    if n == 0 then i else Advance(Incr(i, m), n - 1, m)
  }

  function Reserved(i: nat, n: nat, m: nat): (r: seq<nat>)
    requires i < m
    ensures |r| == n
    decreases n
  {
    if n == 0 then [] else [i] + Reserved(Incr(i, m), n - 1, m)
  }

  predicate CanBegin(c: Config, s: State, pageCount: nat)
  {
    var n := BatchNodes(c, pageCount);
    && 1 <= pageCount <= 2
    && Idle(s)
    && s.parentRing.size + n <= c.parentEntries - 1
    && s.nodeRing.size + pageCount <= c.pages - 1
    && s.orch.issued + n <= c.total
  }

  /** Nodes in the node buffer before the batch was reserved. */
  function BufferedNodes(c: Config, size: nat, n: nat): nat { Sub64(size * c.nodesPerPage, n) }

  function BeginBatch(c: Config, s: State, pageCount: nat): State
    requires s.nodeRing.head < |s.nodes| && s.parentRing.head < |s.parents|
  {
    var n := BatchNodes(c, pageCount);
    var o := s.orch;
    var size := s.nodeRing.size + pageCount;
    var bufferCount := BufferedNodes(c, size, n);
    var cacheMin := Sub64(o.issued, bufferCount);
    s.(
      parents := ReserveParents(s.parents, s.parentRing.head, n),
      parentRing := Ring(Advance(s.parentRing.head, n, |s.parents|), s.parentRing.tail, s.parentRing.size + n),
      nodes := ReserveNodes(s.nodes, s.nodeRing.head, pageCount),
      nodeRing := Ring(Advance(s.nodeRing.head, pageCount, |s.nodes|), s.nodeRing.tail, size),
      orch := o.(
        batchBase := o.issued, reserved := o.issued + n,
        batchEntries := Reserved(s.nodeRing.head, pageCount, |s.nodes|),
        parentEntry := s.parentRing.head,
        bufferCount := bufferCount, cacheMin := cacheMin,
        cacheFloor := Min(cacheMin + c.parentEntries, o.tailWrite)))
  }

  /** Whether parent x of the node being issued is taken from the node buffer. */
  predicate Cached(s: State, x: nat) { x >= s.orch.cacheFloor }

  function CacheEntry(c: Config, s: State, x: nat): nat
    requires c.nodesPerPage > 0
  {
    Add(s.nodeRing.tail, Div(Sub64(x, s.orch.cacheMin), c.nodesPerPage), c.pages)
  }

  /** The pointer, its synchronisation mark, and the disk request for parent j > 0 of node y. */
  function ParentPtr(c: Config, s: State, y: nat, j: nat): Ptr
    requires c.layerSize > 0 && c.nodesPerPage > 0 && NodeOf(c, y) > 0 && 0 < j < PARENTS
  {
    var x := ParentId(c, y, j);
    var row := Slot(NodeOf(c, x), c.nodesPerPage);
    if Cached(s, x) then NodePtr(CacheEntry(c, s, x), row) else ReadPtr(s.orch.parentEntry, j - 1, row)
  }

  function ParentSync(c: Config, s: State, y: nat, j: nat): Sync
    requires c.layerSize > 0 && c.nodesPerPage > 0 && NodeOf(c, y) > 0 && 0 < j < PARENTS
  {
    var x := ParentId(c, y, j);
    if !Cached(s, x) then NotNodeBuffer
    else if Sub64(y, x) < LocalSpan(c) then LocalNode
    else NodeIdx(CacheEntry(c, s, x))
  }

  function ParentRequest(c: Config, s: State, y: nat, j: nat): Request
    requires c.layerSize > 0 && NodeOf(c, y) > 0 && 0 < j < PARENTS
  {
    var x := ParentId(c, y, j);
    if Cached(s, x) then Nop else Read(x)
  }

  /** The slots of a request batch the disk has to serve. */
  function ReadSlots(requests: seq<Request>): (r: set<nat>)
    ensures |r| <= |requests|
    ensures forall j: nat :: j in r <==> j < |requests| && requests[j].Read?
  {
    if requests == [] then {}
    else
      var n := |requests| - 1;
      ReadSlots(requests[..n]) + (if requests[n].Read? then {n} else {})
  }

  function IssuedEntry(c: Config, s: State, was: ParentEntry): ParentEntry
    requires c.layerSize > 0 && c.nodesPerPage > 0
  {
    var y := s.orch.issued;
    if NodeOf(c, y) == 0 then
      was.(valid := was.valid + READS,
           ptrs := seq(PARENTS, _ => Null), syncs := seq(PARENTS, _ => NotNodeBuffer),
           requests := seq(READS, _ => Nop), pending := {})
    else
      var requests := seq(READS, j requires 0 <= j < READS => ParentRequest(c, s, y, j + 1));
      var pending := ReadSlots(requests);
      was.(valid := was.valid + (READS - |pending|),
           ptrs := seq(PARENTS, j requires 0 <= j < PARENTS =>
             if j == 0 then s.orch.prev else ParentPtr(c, s, y, j)),
           syncs := seq(PARENTS, j requires 0 <= j < PARENTS =>
             if j == 0 then LocalNode else ParentSync(c, s, y, j)),
           requests := requests,
           pending := pending)
  }

  /** reference_count++ and consumed_count++ for every pointer marked with a node buffer entry. */
  function Bump(counts: seq<SyncCount>, marks: seq<Sync>, references: int, consumed: int): (r: seq<SyncCount>)
    ensures |r| == |counts|
    decreases |marks|
  {
    if marks == [] then counts
    else
      var m := marks[|marks| - 1];
      var rest := Bump(counts, marks[..|marks| - 1], references, consumed);
      if m.NodeIdx? && m.entry / SYNC_BATCH < |rest| then
        var b := m.entry / SYNC_BATCH;
        rest[b := SyncCount(rest[b].references + references, rest[b].consumed + consumed)]
      else rest
  }

  predicate CanIssue(s: State) { s.orch.issued < s.orch.reserved }

  function IssueNode(c: Config, s: State): State
    requires c.layerSize > 0 && c.nodesPerPage > 0
    requires s.orch.parentEntry < |s.parents|
  {
    var o := s.orch;
    var e := o.parentEntry;
    var entry := IssuedEntry(c, s, s.parents[e]);
    var page := Div(Sub64(o.issued, o.batchBase), c.nodesPerPage);
    var row := Slot(NodeOf(c, o.issued), c.nodesPerPage);
    s.(
      parents := s.parents[e := entry],
      syncs := Bump(s.syncs, entry.syncs, 1, 0),
      orch := o.(
        issued := o.issued + 1,
        parentEntry := Incr(e, |s.parents|),
        prev := if page < |o.batchEntries| then NodePtr(o.batchEntries[page], row) else Null))
  }

  /** Hand the next page to the disk once every coordinator is past it. */
  predicate CanSubmit(c: Config, s: State)
    requires c.nodesPerPage > 0
  {
    Idle(s) && s.orch.headWrite < s.orch.minHash && PageOf(c, s.orch.headWrite) < PageOf(c, s.orch.minHash)
  }

  /** ring_counter_t::operator+= of one page. */
  function CounterAdd(c: Config, idx: nat): nat {
    if idx + c.nodesPerPage >= c.pages * c.nodesPerPage
    then idx + c.nodesPerPage - c.pages * c.nodesPerPage else idx + c.nodesPerPage
  }

  function SubmitWrite(c: Config, s: State): State
    requires c.nodesPerPage > 0
  {
    var o := s.orch;
    var e := Div(o.headWriteIdx, c.nodesPerPage);
    s.(
      nodes := if e < |s.nodes| then s.nodes[e := s.nodes[e].(writing := true, node := o.headWrite)] else s.nodes,
      orch := o.(
        headWrite := o.headWrite + c.nodesPerPage,
        headWriteIdx := CounterAdd(c, o.headWriteIdx),
        outstanding := o.outstanding + 1))
  }

  predicate CanAdvance(c: Config, s: State)
    requires c.nodesPerPage > 0
  {
    var e := Div(s.orch.tailWriteIdx, c.nodesPerPage);
    Idle(s) && e != Div(s.orch.headWriteIdx, c.nodesPerPage) && e < |s.nodes| && s.nodes[e].valid != 0
  }

  function AdvanceWritten(c: Config, s: State): State {
    var o := s.orch;
    s.(orch := o.(
      tailWrite := o.tailWrite + c.nodesPerPage,
      tailWriteIdx := CounterAdd(c, o.tailWriteIdx),
      outstanding := o.outstanding - 1))
  }

  predicate CanReleaseParent(s: State) { Idle(s) && s.orch.tailParents < s.orch.minHash }

  function Release(r: Ring, m: nat): Ring
    requires r.tail < m
  {
    Ring(r.head, Incr(r.tail, m), if r.size > 0 then r.size - 1 else 0)
  }

  function ReleaseParent(s: State): State
    requires s.parentRing.tail < |s.parents|
  {
    s.(
      syncs := Bump(s.syncs, s.parents[s.parentRing.tail].syncs, 0, 1),
      parentRing := Release(s.parentRing, |s.parents|),
      orch := s.orch.(tailParents := s.orch.tailParents + 1))
  }

  /** The first page of a sync batch is only given up when all references were consumed. */
  predicate CanReleaseNode(s: State) {
    var b := s.nodeRing.tail / SYNC_BATCH;
    && Idle(s) && s.orch.tailNode < s.orch.minNode && s.orch.tailNode < s.orch.tailWrite
    && (s.nodeRing.tail % SYNC_BATCH == 0 ==>
          b < |s.syncs| && s.syncs[b].references == s.syncs[b].consumed)
  }

  function ReleaseNode(c: Config, s: State): State
    requires c.nodesPerPage > 0 && c.layerSize > 0
    requires s.nodeRing.tail < |s.nodes|
  {
    var b := s.nodeRing.tail / SYNC_BATCH;
    s.(
      syncs := if s.nodeRing.tail % SYNC_BATCH == 0 && b < |s.syncs|
               then s.syncs[b := SyncCount(0, 0)] else s.syncs,
      nodeRing := if Slot(NodeOf(c, s.orch.tailNode), c.nodesPerPage) == c.nodesPerPage - 1
                  then Release(s.nodeRing, |s.nodes|) else s.nodeRing,
      orch := s.orch.(tailNode := s.orch.tailNode + 1))
  }

  // ----- Disk -----------------------------------------------------------------------------

  predicate CanReadDone(s: State, e: nat, j: nat) {
    e < |s.parents| && j in s.parents[e].pending && j < |s.parents[e].requests| && j < |s.parents[e].pages|
    && s.parents[e].requests[j].Read?
  }

  /** The requested page arrives and the completion callback raises the valid count. */
  function ReadDone(c: Config, s: State, e: nat, j: nat): State
    requires c.nodesPerPage > 0 && CanReadDone(s, e, j)
  {
    var was := s.parents[e];
    var p := PageOf(c, was.requests[j].node);
    s.(parents := s.parents[e := was.(
      valid := was.valid + 1,
      pending := was.pending - {j},
      pages := if p in s.disk then was.pages[j := s.disk[p]] else was.pages)])
  }

  predicate CanWriteDone(s: State, e: nat) { e < |s.nodes| && s.nodes[e].writing }

  function WriteDone(c: Config, s: State, e: nat): State
    requires c.nodesPerPage > 0 && CanWriteDone(s, e)
  {
    var was := s.nodes[e];
    s.(
      disk := s.disk[PageOf(c, was.node) := was.page],
      nodes := s.nodes[e := was.(writing := false, valid := was.valid + 1)])
  }

  // ----- Coordinators ---------------------------------------------------------------------

  /** The labels a pointer leads to, for all hashers of coordinator k. */
  function Load(s: State, p: Ptr, k: nat): seq<Digest> {
    match p
    case Null => []
    case NodePtr(e, r) =>
      if e < |s.nodes| && r < |s.nodes[e].page| && k < |s.nodes[e].page[r]| then s.nodes[e].page[r][k] else []
    case ReadPtr(e, j, r) =>
      if e < |s.parents| && j < |s.parents[e].pages| && r < |s.parents[e].pages[j]|
         && k < |s.parents[e].pages[j][r]|
      then s.parents[e].pages[j][r][k] else []
  }

  predicate CanCopy(c: Config, s: State, k: nat) {
    && k < |s.coords|
    && var q := s.coords[k];
       q.filling && q.count < c.batchSize && q.node < c.total
       && q.idx < |s.parents| && s.parents[q.idx].valid >= READS
  }

  function CopiedCell(s: State, k: nat, e: ParentEntry, was: Cell): Cell
    requires EntryShape(e) && |was.data| == PARENTS
  {
    Cell(
      seq(PARENTS, j requires 0 <= j < PARENTS => if e.syncs[j] == LocalNode then e.ptrs[j] else Null),
      seq(PARENTS, j requires 0 <= j < PARENTS =>
        if e.ptrs[j] == Null || e.syncs[j] == LocalNode then was.data[j] else Load(s, e.ptrs[j], k)))
  }

  function CopyNode(c: Config, s: State, k: nat): State
    requires CanCopy(c, s, k) && k < |c.hashers| && CoordShape(c, k, s.coords[k])
    requires EntryShape(s.parents[s.coords[k].idx])
  {
    var q := s.coords[k];
    var batch := q.cells[q.batchIdx];
    var cell := CopiedCell(s, k, s.parents[q.idx], batch[q.count]);
    var full := q.count + 1 == c.batchSize;
    s.(coords := s.coords[k := q.(
      cells := q.cells[q.batchIdx := batch[q.count := cell]],
      count := q.count + 1,
      nextValid := if full then q.nextValid + c.batchSize else q.nextValid,
      filling := !full,
      node := q.node + 1,
      idx := Incr(q.idx, |s.parents|))])
  }

  predicate RingFull(c: Config, q: Coordinator) { q.ring.size == c.batchCount - 1 }

  /** Take back the oldest batch: when the ring is full, or while draining at the end. */
  predicate CanRecycle(c: Config, s: State, k: nat) {
    && k < |s.coords|
    && var q := s.coords[k];
       && ((!q.filling && RingFull(c, q)) || (q.filling && q.node == c.total && q.completed < c.total))
       && q.ring.tail < |q.done| && q.done[q.ring.tail] == |q.hashers|
  }

  function Recycle(c: Config, s: State, k: nat): State
    requires CanRecycle(c, s, k)
  {
    var q := s.coords[k];
    s.(coords := s.coords[k := q.(
      done := q.done[q.ring.tail := 0],
      ring := Release(q.ring, |q.done|),
      completed := q.completed + c.batchSize)])
  }

  predicate CanReserve(c: Config, s: State, k: nat) {
    k < |s.coords| && !s.coords[k].filling && !RingFull(c, s.coords[k])
    && s.coords[k].ring.head < |s.coords[k].done|
  }

  function Reserve(s: State, k: nat): State
    requires k < |s.coords| && s.coords[k].ring.head < |s.coords[k].done|
  {
    var q := s.coords[k];
    s.(coords := s.coords[k := q.(
      batchIdx := q.ring.head,
      ring := Ring(Incr(q.ring.head, |q.done|), q.ring.tail, q.ring.size + 1),
      filling := true, count := 0)])
  }

  function Publish(s: State, k: nat): State
    requires k < |s.coords|
  {
    s.(coords := s.coords[k := s.coords[k].(published := s.coords[k].completed)])
  }

  // ----- Hashers --------------------------------------------------------------------------

  predicate IsHasher(s: State, k: nat, i: nat) {
    k < |s.coords| && i < |s.coords[k].hashers|
  }

  function SetHasher(s: State, k: nat, i: nat, h: Hasher): State
    requires IsHasher(s, k, i)
  {
    s.(coords := s.coords[k := s.coords[k].(hashers := s.coords[k].hashers[i := h])])
  }

  predicate CanLoad(s: State, k: nat, i: nat) {
    IsHasher(s, k, i) && var h := s.coords[k].hashers[i]; h.pos == 0 && h.valid <= h.node
  }

  function LoadValid(s: State, k: nat, i: nat): State
    requires IsHasher(s, k, i)
  {
    SetHasher(s, k, i, s.coords[k].hashers[i].(valid := s.coords[k].nextValid))
  }

  predicate CanHash(c: Config, s: State, k: nat, i: nat) {
    IsHasher(s, k, i) && var h := s.coords[k].hashers[i]; h.pos < c.batchSize && (h.pos > 0 || h.node < h.valid)
  }

  /** The labels the pointers set up for SHA-256 lead to, for the parents node x consumes. */
  function HashInputs(c: Config, s: State, k: nat, i: nat, cell: Cell, x: nat): (r: seq<Digest>)
    requires c.layerSize > 0 && |cell.ptrs| == PARENTS && |cell.data| == PARENTS
    ensures |r| == ParentCount(c, x)
  {
    seq(ParentCount(c, x), j requires 0 <= j < ParentCount(c, x) =>
      var src := if cell.ptrs[j] != Null then Load(s, cell.ptrs[j], k) else cell.data[j];
      if i < |src| then src[i] else 0)
  }

  /** The pointers set up for a hash are as many as the repeat count of the layer says, and none at node 0. */
  lemma HashInputLengths(c: Config, s: State, k: nat, i: nat, cell: Cell, x: nat)
    requires c.layerSize > 0 && |cell.ptrs| == PARENTS && |cell.data| == PARENTS
    ensures Slot(x, c.layerSize) == 0 ==> HashInputs(c, s, k, i, cell, x) == []
    ensures Slot(x, c.layerSize) > 0 && x < c.layerSize ==> |HashInputs(c, s, k, i, cell, x)| == 2 * LAYER_1_REPEAT
    ensures Slot(x, c.layerSize) > 0 && x >= c.layerSize ==>
      |HashInputs(c, s, k, i, cell, x)| == 2 * LAYERS_GT_1_REPEAT
  {
    hide Slot;
  }

  /** What hasher i of coordinator k computes next. */
  function HashValue(c: Config, s: State, k: nat, i: nat): Digest
    requires c.layerSize > 0 && k < |c.hashers| && IsHasher(s, k, i) && CoordShape(c, k, s.coords[k])
    requires s.coords[k].hashers[i].pos < c.batchSize
  {
    var h := s.coords[k].hashers[i];
    c.hash(k, i, h.node, HashInputs(c, s, k, i, s.coords[k].cells[h.ringIdx][h.pos], h.node))
  }

  function StoreLabel(p: Page, row: nat, k: nat, i: nat, v: Digest): Page {
    if row < |p| && k < |p[row]| && i < |p[row][k]| then p[row := p[row][k := p[row][k][i := v]]] else p
  }

  function HashNode(c: Config, s: State, k: nat, i: nat): State
    requires c.layerSize > 0 && c.nodesPerPage > 0 && k < |c.hashers|
    requires CanHash(c, s, k, i) && CoordShape(c, k, s.coords[k]) && |s.nodes| == c.pages
  {
    var h := s.coords[k].hashers[i];
    var row := Slot(NodeOf(c, h.node), c.nodesPerPage);
    var e := s.nodes[h.nodeIdx];
    var s1 := s.(nodes := s.nodes[h.nodeIdx :=
      e.(page := StoreLabel(e.page, row, k, i, HashValue(c, s, k, i)))]);
    SetHasher(s1, k, i, h.(
      node := h.node + 1, pos := h.pos + 1,
      nodeIdx := if Slot(NodeOf(c, h.node + 1), c.nodesPerPage) == 0 then Incr(h.nodeIdx, c.pages) else h.nodeIdx))
  }

  predicate CanFinish(c: Config, s: State, k: nat, i: nat) {
    IsHasher(s, k, i) && s.coords[k].hashers[i].pos == c.batchSize
  }

  function FinishBatch(c: Config, s: State, k: nat, i: nat): State
    requires k < |c.hashers| && IsHasher(s, k, i) && CoordShape(c, k, s.coords[k])
  {
    var q := s.coords[k];
    var h := q.hashers[i];
    s.(coords := s.coords[k := q.(
      done := q.done[h.ringIdx := q.done[h.ringIdx] + 1],
      hashers := q.hashers[i := h.(ringIdx := Incr(h.ringIdx, c.batchCount), pos := 0)])])
  }

  // ----- Runs -----------------------------------------------------------------------------

  ghost predicate Enabled(c: Config, s: State, step: Step)
    requires Wf(c)
  {
    match step
    case Scan => CanScan(s)
    case Begin(n) => CanBegin(c, s, n)
    case Issue => CanIssue(s)
    case Submit => CanSubmit(c, s)
    case Written => CanAdvance(c, s)
    case DropParent => CanReleaseParent(s)
    case DropNode => CanReleaseNode(s)
    case ReadArrives(e, j) => CanReadDone(s, e, j)
    case WriteArrives(e) => CanWriteDone(s, e)
    case Copy(k) => CanCopy(c, s, k)
    case TakeBack(k) => CanRecycle(c, s, k)
    case Open(k) => CanReserve(c, s, k)
    case Tell(k) => k < |s.coords|
    case Look(k, i) => CanLoad(s, k, i)
    case Hash(k, i) => CanHash(c, s, k, i)
    case Finish(k, i) => CanFinish(c, s, k, i)
  }

  ghost function Apply(c: Config, s: State, step: Step): State
    requires Wf(c) && Shape(c, s) && Enabled(c, s, step)
  {
    match step
    case Scan => ScanHashed(s)
    case Begin(n) => BeginBatch(c, s, n)
    case Issue => IssueNode(c, s)
    case Submit => SubmitWrite(c, s)
    case Written => AdvanceWritten(c, s)
    case DropParent => ReleaseParent(s)
    case DropNode => ReleaseNode(c, s)
    case ReadArrives(e, j) => ReadDone(c, s, e, j)
    case WriteArrives(e) => WriteDone(c, s, e)
    case Copy(k) => CopyNode(c, s, k)
    case TakeBack(k) => Recycle(c, s, k)
    case Open(k) => Reserve(s, k)
    case Tell(k) => Publish(s, k)
    case Look(k, i) => LoadValid(s, k, i)
    case Hash(k, i) => HashNode(c, s, k, i)
    case Finish(k, i) => FinishBatch(c, s, k, i)
  }

  /** The state before the first step; buffer contents are whatever memory held. */
  ghost predicate Init(c: Config, s: State)
    requires Wf(c)
  {
    && Shape(c, s)
    && s.orch == Orchestrator(0, 0, 0, [], 0, 0, 0, 0, Null, 0, 0, 0, 0, 0, 0, 0, 0, 0, 0, 0)
    && s.nodeRing == Ring(0, 0, 0) && s.parentRing == Ring(0, 0, 0)
    && (forall e :: 0 <= e < |s.nodes| ==> s.nodes[e].valid == 0 && !s.nodes[e].writing)
    && (forall e :: 0 <= e < |s.parents| ==> s.parents[e].valid == 0 && s.parents[e].pending == {})
    && (forall b :: 0 <= b < |s.syncs| ==> s.syncs[b] == SyncCount(0, 0))
    && c.pages <= SYNC_BATCH * |s.syncs|
    && (forall k :: 0 <= k < |s.coords| ==> InitCoord(c, s.coords[k]))
  }

  predicate InitCoord(c: Config, q: Coordinator)
    requires c.batchCount > 1
  {
    && q.node == q.completed == q.published == q.nextValid == q.idx == q.batchIdx == q.count == 0
    && q.ring == Ring(1, 0, 1) && q.filling
    && (forall b :: 0 <= b < |q.done| ==> q.done[b] == 0)
    && (forall i :: 0 <= i < |q.hashers| ==> q.hashers[i] == Hasher(0, 0, 0, 0, 0))
  }
}
