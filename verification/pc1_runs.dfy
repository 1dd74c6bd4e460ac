/** What holds in every run of the PC1 engine, however its threads and disks interleave. */
module Pc1Runs {
  import opened RingMath
  import opened Pc1Graph
  import opened Pc1Machine
  import opened Pc1Invariant
  import opened Pc1Hashers
  import opened Pc1Coordinators
  import opened Pc1Disk
  import opened Pc1Orchestrator
  import opened Pc1Issue

  lemma InitInv(c: Config, s: State)
    requires Wf(c) && Init(c, s)
    ensures Inv(c, s)
  {
    ZeroSlot(c.nodesPerPage);
    ZeroSlot(c.parentEntries);
    ZeroSlot(c.pages);
    ZeroSlot(c.batchSize);
    ZeroSlot(c.batchCount);
    assert PageOf(c, 0) == 0;
    hide Slot, PageShape, EntryShape;
    forall k | 0 <= k < |s.coords| ensures CoordOk(c, 0, s.coords[k]) && CellsOk(c, k, s.coords[k]) {
      assert CoordShape(c, k, s.coords[k]);
      InitCoordOk(c, k, s.coords[k]);
    }
  }

  lemma InitCoordOk(c: Config, k: nat, q: Coordinator)
    requires Wf(c) && k < |c.hashers| && CoordShape(c, k, q) && InitCoord(c, q)
    ensures CoordOk(c, 0, q)
  {
    ZeroSlot(c.nodesPerPage);
    ZeroSlot(c.parentEntries);
    ZeroSlot(c.pages);
    ZeroSlot(c.batchSize);
    ZeroSlot(c.batchCount);
    assert Slot(1, c.batchCount) == 1;
    hide Slot;
    forall b | 0 <= b < c.batchCount ensures CountPast(c, q.hashers, b) == 0 {
      NonePast(c, q.hashers, b);
    }
    forall i | 0 <= i < |q.hashers| ensures HasherOk(c, q, q.hashers[i]) {
    }
  }

  lemma StepInv(c: Config, s: State, step: Step)
    requires Wf(c) && Inv(c, s) && Enabled(c, s, step)
    ensures Inv(c, Apply(c, s, step))
  {
    hide Inv;
    assert Shape(c, s) by { ShapeOfInv(c, s); }
    match step
    case Scan => ScanKeepsInv(c, s);
    case Begin(n) => BeginKeepsInv(c, s, n);
    case Issue => IssueKeepsInv(c, s);
    case Submit => SubmitKeepsInv(c, s);
    case Written => AdvanceKeepsInv(c, s);
    case DropParent => ReleaseParentKeepsInv(c, s);
    case DropNode => ReleaseNodeKeepsInv(c, s);
    case ReadArrives(e, j) => ReadKeepsInv(c, s, e, j);
    case WriteArrives(e) => WriteKeepsInv(c, s, e);
    case Copy(k) => CopyKeepsInv(c, s, k);
    case TakeBack(k) => RecycleKeepsInv(c, s, k);
    case Open(k) => ReserveKeepsInv(c, s, k);
    case Tell(k) => PublishKeepsInv(c, s, k);
    case Look(k, i) => LookKeepsInv(c, s, k, i);
    case Hash(k, i) => HashKeepsInv(c, s, k, i);
    case Finish(k, i) => FinishKeepsInv(c, s, k, i);
  }

  lemma ShapeOfInv(c: Config, s: State)
    requires Wf(c) && Inv(c, s)
    ensures Shape(c, s)
  {
  }

  // ----- Runs -----------------------------------------------------------------------------------

  datatype Run = Run(states: seq<State>, steps: seq<Step>)

  /** Any steps in any order, as long as each is enabled where it is taken. */
  ghost predicate IsRun(c: Config, r: Run)
    requires Wf(c)
  {
    && |r.states| == |r.steps| + 1
    && Init(c, r.states[0])
    && forall n :: 0 <= n < |r.steps| ==> Next(c, r.states[n], r.steps[n], r.states[n + 1])
  }

  ghost predicate Next(c: Config, s: State, step: Step, s': State)
    requires Wf(c)
  {
    Enabled(c, s, step) && (Shape(c, s) ==> s' == Apply(c, s, step))
  }

  /** Every state of every run satisfies the invariant. */
  lemma {:induction false} RunInv(c: Config, r: Run, n: nat)
    requires Wf(c) && IsRun(c, r) && n < |r.states|
    ensures Inv(c, r.states[n])
    decreases n
  {
    hide Inv, Init, Enabled, Apply;
    if n == 0 {
      InitInv(c, r.states[0]);
    } else {
      RunInv(c, r, n - 1);
      ShapeOfInv(c, r.states[n - 1]);
      assert Next(c, r.states[n - 1], r.steps[n - 1], r.states[n]);
      StepInv(c, r.states[n - 1], r.steps[n - 1]);
    }
  }

  /** How often hasher i of coordinator k has hashed in a run so far. */
  function Hashes(steps: seq<Step>, k: nat, i: nat): nat {
    if steps == [] then 0
    else Hashes(steps[..|steps| - 1], k, i) + (if steps[|steps| - 1] == Hash(k, i) then 1 else 0)
  }

  /** A step moves a hasher's node count exactly when it is that hasher's hash. */
  lemma StepMoves(c: Config, s: State, step: Step, k: nat, i: nat)
    requires Wf(c) && Shape(c, s) && Enabled(c, s, step) && IsHasher(s, k, i)
    ensures IsHasher(Apply(c, s, step), k, i)
    ensures Apply(c, s, step).coords[k].hashers[i].node ==
            s.coords[k].hashers[i].node + (if step == Hash(k, i) then 1 else 0)
  {
    hide Slot, Div, PageShape, EntryShape, Bump, ReserveNodes, ReserveParents, Sub64, IssuedEntry, CopiedCell,
      HashValue, Load,
      CounterAdd, Advance, Reserved, BufferedNodes;
  }

  /** Main result.  In every run the nth hash of a hasher is of node n, and what it
    * writes is the sequential label of that node, into that node's place. */
  lemma HashesSequentially(c: Config, r: Run, n: nat, k: nat, i: nat)
    requires Wf(c) && IsRun(c, r) && n < |r.steps| && r.steps[n] == Hash(k, i)
    ensures Shape(c, r.states[n]) && Shape(c, r.states[n + 1]) && CanHash(c, r.states[n], k, i)
    ensures HashValue(c, r.states[n], k, i) == Label(c, k, i, Hashes(r.steps[..n], k, i))
    ensures Stored(c, r.states[n + 1].nodes, k, i, Hashes(r.steps[..n], k, i))
            == Label(c, k, i, Hashes(r.steps[..n], k, i))
  {
    hide Inv, Init, Apply, Slot, Div, Label, Stored, HashValue, HashNode, PageShape, EntryShape;
    var s, s' := r.states[n], r.states[n + 1];
    RunInv(c, r, n);
    RunInv(c, r, n + 1);
    ShapeOfInv(c, s);
    ShapeOfInv(c, s');
    assert Next(c, s, r.steps[n], s');
    ApplyHash(c, s, k, i);
    HashedRight(c, s, k, i);
    assert CoordShape(c, k, s.coords[k]);
    NodeCount(c, r, n, k, i);
    HashKeepsShape(c, s, k, i);
    JustStored(c, s, k, i);
  }

  lemma ApplyHash(c: Config, s: State, k: nat, i: nat)
    requires Wf(c) && Shape(c, s) && CanHash(c, s, k, i)
    ensures Apply(c, s, Hash(k, i)) == HashNode(c, s, k, i)
  {
    hide HashNode;
  }

  lemma JustStored(c: Config, s: State, k: nat, i: nat)
    requires Wf(c) && Inv(c, s) && CanHash(c, s, k, i) && Shape(c, HashNode(c, s, k, i))
    ensures Stored(c, HashNode(c, s, k, i).nodes, k, i, s.coords[k].hashers[i].node)
            == Label(c, k, i, s.coords[k].hashers[i].node)
  {
    hide Slot, Div, EntriesOk, NodesOk, SyncsOk, RingsOk, BatchOk, ScanOk, OrchOk, CoordsOk, HashValue, Label;
    HasherReady(c, s, k, i);
    HashedRight(c, s, k, i);
    var t := s.coords[k].hashers[i].node;
    NextNodeIdx(c, t);
    assert PageShape(c, s.nodes[EntryOf(c, t)].page);
    assert RowShape(c, s.nodes[EntryOf(c, t)].page[RowOf(c, t)]);
  }

  lemma {:induction false} NodeCount(c: Config, r: Run, n: nat, k: nat, i: nat)
    requires Wf(c) && IsRun(c, r) && n < |r.states| && k < |c.hashers| && i < c.hashers[k]
    ensures IsHasher(r.states[n], k, i)
    ensures r.states[n].coords[k].hashers[i].node == Hashes(r.steps[..n], k, i)
    decreases n
  {
    hide Inv, Apply, Enabled, PageShape, EntryShape;
    RunInv(c, r, n);
    ShapeOfInv(c, r.states[n]);
    assert CoordShape(c, k, r.states[n].coords[k]);
    if n > 0 {
      NodeCount(c, r, n - 1, k, i);
      RunInv(c, r, n - 1);
      ShapeOfInv(c, r.states[n - 1]);
      assert Next(c, r.states[n - 1], r.steps[n - 1], r.states[n]);
      StepMoves(c, r.states[n - 1], r.steps[n - 1], k, i);
      assert r.steps[..n][..n - 1] == r.steps[..n - 1];
    } else {
      assert InitCoord(c, r.states[0].coords[k]);
    }
  }

  /** When the orchestrator's loop can end, every page of every layer is on disk, and right. */
  lemma FinalDisk(c: Config, r: Run, n: nat, x: nat)
    requires Wf(c) && IsRun(c, r) && n < |r.states| && r.states[n].orch.tailWrite >= c.total
    requires x < c.total
    ensures
      var disk := r.states[n].disk;
      PageOf(c, x) in disk && RowOf(c, x) < |disk[PageOf(c, x)]| && RowIs(c, disk[PageOf(c, x)][RowOf(c, x)], x)
  {
    hide Slot, Div, RowIs, EntriesOk, SyncsOk, RingsOk, BatchOk, ScanOk, CoordsOk, BufferOk, NodeEntryOk;
    RunInv(c, r, n);
    PageBelow(c, x, r.states[n].orch.tailWrite);
    assert OnDisk(c, r.states[n].disk, PageOf(c, x));
  }

  // ----- Safety of the shared buffers -------------------------------------------------------------

  /** A parent pointer into the node buffer is good until its node has been hashed: every hasher
    * past the parent and not past the node finds the parent's label there, released or not. */
  lemma PointerHolds(c: Config, r: Run, n: nat, y: nat, j: nat, k: nat, i: nat)
    requires Wf(c) && IsRun(c, r) && n < |r.states| && Shape(c, r.states[n]) && IsHasher(r.states[n], k, i)
    requires r.states[n].orch.tailParents <= y < r.states[n].orch.issued && j < PARENTS
    requires r.states[n].parents[Slot(y, c.parentEntries)].ptrs[j].NodePtr?
    requires NodeOf(c, y) > 0 ==> ParentId(c, y, j) < r.states[n].coords[k].hashers[i].node <= y
    ensures NodeOf(c, y) > 0
    ensures
      var s := r.states[n];
      var x := ParentId(c, y, j);
      var v := Load(s, s.parents[Slot(y, c.parentEntries)].ptrs[j], k);
      i < |v| && v[i] == Label(c, k, i, x)
      && y - x < c.nodesPerPage * c.pages
  {
    hide Slot, Div, EntriesOk, SyncsOk, RingsOk, BatchOk, ScanOk, CoordsOk, NodesOk, Label, PtrOk, Load;
    var s := r.states[n];
    RunInv(c, r, n);
    PointerTarget(c, s, y, j);
    var x := ParentId(c, y, j);
    assert CoordShape(c, k, s.coords[k]);
    DivMonotone(s.coords[k].hashers[i].node, y, c.nodesPerPage);
    DivNear(x, y, c.nodesPerPage, c.pages);
    assert ColumnOk(c, s.nodes, k, i, s.coords[k].hashers[i].node);
    LoadNode(c, s, x, k, i);
  }

  lemma PointerTarget(c: Config, s: State, y: nat, j: nat)
    requires Wf(c) && Inv(c, s) && s.orch.tailParents <= y < s.orch.issued && j < PARENTS
    requires EntryShape(s.parents[Slot(y, c.parentEntries)])
    requires s.parents[Slot(y, c.parentEntries)].ptrs[j].NodePtr?
    ensures NodeOf(c, y) > 0
    ensures var x := ParentId(c, y, j);
      s.parents[Slot(y, c.parentEntries)].ptrs[j] == NodePtr(EntryOf(c, x), RowOf(c, x)) && InSpan(c, x, y)
  {
    hide Slot, Div, SyncsOk, RingsOk, BatchOk, ScanOk, CoordsOk, NodesOk, BufferOk, LocalSpan, RowIs;
    var e := s.parents[Slot(y, c.parentEntries)];
    assert EntryOk(c, e, y, s.orch.tailWrite);
    if j > 0 && NodeOf(c, y) > 0 { assert PtrOk(c, e, y, j, s.orch.tailWrite); }
  }

  lemma LoadNode(c: Config, s: State, x: nat, k: nat, i: nat)
    requires Wf(c) && Shape(c, s) && k < |c.hashers| && i < c.hashers[k]
    ensures
      var v := Load(s, NodePtr(EntryOf(c, x), RowOf(c, x)), k);
      i < |v| && v[i] == Stored(c, s.nodes, k, i, x)
  {
    hide Slot, Div, CoordShape, EntryShape;
    assert PageShape(c, s.nodes[EntryOf(c, x)].page);
    assert RowShape(c, s.nodes[EntryOf(c, x)].page[RowOf(c, x)]);
  }

  /** A read is only outstanding for a page whose write has completed. */
  lemma ReadAfterWrite(c: Config, r: Run, n: nat, e: nat, j: nat)
    requires Wf(c) && IsRun(c, r) && n < |r.states| && CanReadDone(r.states[n], e, j)
    ensures r.states[n].parents[e].requests[j].node < r.states[n].orch.tailWrite
    ensures OnDisk(c, r.states[n].disk, PageOf(c, r.states[n].parents[e].requests[j].node))
  {
    hide Inv, OnDisk;
    RunInv(c, r, n);
    ReadsWritten(c, r.states[n], e, j);
  }

  /** A hasher only hashes into an entry whose previous page is on disk and no longer with it. */
  lemma HashAfterWrite(c: Config, r: Run, n: nat, k: nat, i: nat)
    requires Wf(c) && IsRun(c, r) && n < |r.states| && CanHash(c, r.states[n], k, i)
    ensures
      var s := r.states[n];
      var h := s.coords[k].hashers[i];
      && h.nodeIdx == EntryOf(c, h.node)
      && h.nodeIdx < |s.nodes| && !s.nodes[h.nodeIdx].writing
      && (PageOf(c, h.node) >= c.pages ==> OnDisk(c, s.disk, PageOf(c, h.node) - c.pages))
  {
    hide Slot, Div, SyncsOk, BatchOk, EntriesOk, BufferOk, OnDisk, CellsOk, SeenOk, CountPast, PageShape, EntryShape;
    var s := r.states[n];
    RunInv(c, r, n);
    HasherReady(c, s, k, i);
    var o, t := s.orch, s.coords[k].hashers[i].node;
    assert CoordOk(c, o.issued, s.coords[k]);
    PageBelow(c, t, o.reserved);
    DivMonotone(o.tailNode, o.tailWrite, c.nodesPerPage);
    DivMonotone(o.tailWrite, o.headWrite, c.nodesPerPage);
    DivMonotone(o.headWrite, t, c.nodesPerPage);
    assert NodeEntryOk(c, o, s.nodes[Slot(PageOf(c, t), c.pages)], PageOf(c, t), s.disk);
  }

  /** The batch entry a coordinator is filling is not one any of its hashers still has to work on. */
  lemma FillingIsFree(c: Config, r: Run, n: nat, k: nat, i: nat)
    requires Wf(c) && IsRun(c, r) && n < |r.states| && CanHash(c, r.states[n], k, i)
    requires r.states[n].coords[k].filling
    ensures r.states[n].coords[k].hashers[i].ringIdx != r.states[n].coords[k].batchIdx
  {
    hide Slot, Div, SyncsOk, BatchOk, ScanOk, EntriesOk, NodesOk, BufferOk, CellsOk, SeenOk, CountPast, PageShape,
      EntryShape, RingsOk, OrchOk;
    var s := r.states[n];
    RunInv(c, r, n);
    HasherReady(c, s, k, i);
    var q := s.coords[k];
    var h := q.hashers[i];
    assert CoordOk(c, s.orch.issued, q);
    DivMonotone(q.completed, h.node, c.batchSize);
    DivMonotone(h.node, q.nextValid, c.batchSize);
    SlotsDiffer(Div(h.node, c.batchSize), Div(q.nextValid, c.batchSize), c.batchCount);
  }

  /** The done count of every live batch is the number of hashers past it. */
  lemma DoneCounts(c: Config, r: Run, n: nat, k: nat, b: nat)
    requires Wf(c) && IsRun(c, r) && n < |r.states| && Shape(c, r.states[n]) && k < |r.states[n].coords|
    requires Div(r.states[n].coords[k].completed, c.batchSize) <= b <= Div(r.states[n].coords[k].nextValid, c.batchSize)
    ensures
      CoordShape(c, k, r.states[n].coords[k]) &&
      r.states[n].coords[k].done[Slot(b, c.batchCount)] == CountPast(c, r.states[n].coords[k].hashers, b)
  {
    hide Slot, Div, SyncsOk, BatchOk, ScanOk, EntriesOk, NodesOk, BufferOk, CellsOk, SeenOk, CountPast, PageShape,
      EntryShape, RingsOk, OrchOk, HasherOk;
    RunInv(c, r, n);
    assert CoordShape(c, k, r.states[n].coords[k]);
    assert CoordOk(c, r.states[n].orch.issued, r.states[n].coords[k]);
  }

  /** The cursors stay in order, the ring indices follow them, and the checks in
    * read_batch, write_nodes and process never fire. */
  lemma CursorsOrdered(c: Config, r: Run, n: nat, k: nat)
    requires Wf(c) && IsRun(c, r) && n < |r.states| && k < |r.states[n].coords|
    ensures
      var s := r.states[n];
      var o := s.orch;
      && o.tailNode <= o.tailWrite <= o.headWrite <= o.minHash <= s.coords[k].published <= s.coords[k].completed
      && s.coords[k].completed <= s.coords[k].nextValid <= s.coords[k].node <= o.issued
      && o.tailParents <= o.minHash
      && o.issued - o.tailNode < c.nodesPerPage * c.pages
      && s.nodeRing.tail == EntryOf(c, o.tailNode) && s.nodeRing.head == EntryOf(c, o.reserved)
      && Div(o.tailWriteIdx, c.nodesPerPage) == EntryOf(c, o.tailWrite)
      && Div(o.headWriteIdx, c.nodesPerPage) == EntryOf(c, o.headWrite)
      && s.parentRing.tail == Slot(o.tailParents, c.parentEntries)
      && o.outstanding == PageOf(c, o.headWrite) - PageOf(c, o.tailWrite)
      && (CanSubmit(c, s) ==> EntryOf(c, o.headWrite) < |s.nodes| && s.nodes[EntryOf(c, o.headWrite)].valid == 0)
  {
    hide Slot, Div, SyncsOk, EntriesOk, NodesOk, BufferOk, CellsOk, SeenOk, CountPast, PageShape, EntryShape,
      BatchOk, HasherOk;
    var s := r.states[n];
    RunInv(c, r, n);
    assert CoordShape(c, k, s.coords[k]);
    assert CoordOk(c, s.orch.issued, s.coords[k]);
    DivMonotone(s.orch.issued, s.orch.reserved, c.nodesPerPage);
    DivNear(s.orch.tailNode, s.orch.issued, c.nodesPerPage, c.pages);
    if CanSubmit(c, s) { SubmitReady(c, s); }
  }

  /** read_batch's check on the cache offset. */
  lemma CacheCheck(c: Config, r: Run, n: nat, j: nat)
    requires Wf(c) && IsRun(c, r) && n < |r.states| && CanIssue(r.states[n])
    requires NodeOf(c, r.states[n].orch.issued) > 0 && 0 < j < PARENTS
    requires Cached(r.states[n], ParentId(c, r.states[n].orch.issued, j))
    ensures
      var o := r.states[n].orch;
      var x := ParentId(c, o.issued, j);
      Sub64(x, o.cacheMin) < o.bufferCount + (o.issued - o.batchBase)
      && CacheEntry(c, r.states[n], x) == EntryOf(c, x)
  {
    hide Slot, Div, SyncsOk, EntriesOk, NodesOk, BufferOk, CoordsOk, ScanOk, Sub64;
    RunInv(c, r, n);
    ParentBefore(c, r.states[n].orch.issued, j);
    CacheOffset(c, r.states[n], ParentId(c, r.states[n].orch.issued, j));
  }

  /** References not yet consumed are the pointers of live parent entries into the sync batch. */
  lemma SyncsConserved(c: Config, r: Run, n: nat, b: nat)
    requires Wf(c) && IsRun(c, r) && n < |r.states| && b < |r.states[n].syncs| && |r.states[n].parents| > 0
    ensures
      var s := r.states[n];
      s.syncs[b].references - s.syncs[b].consumed
        == LiveRefs(s.parents, s.orch.tailParents, s.orch.issued, b)
  {
    hide Slot, Div, EntriesOk, NodesOk, BufferOk, CoordsOk, ScanOk, LiveRefs, RingsOk, OrchOk, BatchOk;
    RunInv(c, r, n);
  }
}
