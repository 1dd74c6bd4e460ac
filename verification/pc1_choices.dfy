/** What the threads and the disks choose where the code leaves no choice: which parents are read from disk,
  * which labels are copied, and that every outstanding request can complete.
  */
module Pc1Choices {
  import opened Common
  import opened RingMath
  import opened Pc1Graph
  import opened Pc1Machine
  import opened Pc1Invariant
  import opened Pc1Hashers
  import opened Pc1Coordinators
  import opened Pc1Disk
  import opened Pc1Orchestrator
  import opened Pc1Issue
  import opened Pc1Runs

  /** A parent is taken from the node buffer from the written tail on, and before that once it is a parent
    * ring's worth behind the oldest page of the buffer.
    */
  ghost predicate InBuffer(c: Config, o: Orchestrator, x: nat)
    requires Wf(c)
  {
    x >= o.tailWrite || x >= o.tailNode - RowOf(c, o.tailNode) + c.parentEntries
  }

  /** Main result: when a node is issued, exactly the parents not in the buffer are requested from disk, each
    * pointer leads to the parent's place in the buffer or to the slot its page is read into, and of the
    * buffered parents exactly those too far back to be passed by pointer are counted as references.
    */
  lemma ParentIssued(c: Config, r: Run, n: nat, j: nat)
    requires Wf(c) && IsRun(c, r) && n < |r.steps| && r.steps[n] == Issue && 0 < j < PARENTS
    requires NodeOf(c, r.states[n].orch.issued) > 0
    ensures
      var o, y := r.states[n].orch, r.states[n].orch.issued;
      var x, at := ParentId(c, y, j), Slot(y, c.parentEntries);
      && at < |r.states[n + 1].parents| && EntryShape(r.states[n + 1].parents[at])
      && var e := r.states[n + 1].parents[at];
         && e.requests[j - 1] == (if InBuffer(c, o, x) then Nop else Read(x))
         && e.ptrs[j] == (if InBuffer(c, o, x) then NodePtr(EntryOf(c, x), RowOf(c, x))
                          else ReadPtr(at, j - 1, RowOf(c, x)))
         && e.syncs[j] == (if !InBuffer(c, o, x) then NotNodeBuffer
                           else if y - x < c.batchSize * c.batchCount then LocalNode else NodeIdx(EntryOf(c, x)))
  {
    hide Inv, Init, Apply, Slot, Div, PageShape, ParentPtr, ParentSync, ParentRequest, PtrOk, IssuedEntry, IssueNode;
    var s, s' := r.states[n], r.states[n + 1];
    RunInv(c, r, n);
    ShapeOfInv(c, s);
    assert Next(c, s, r.steps[n], s');
    ApplyIssue(c, s);
    IssueParts(c, s);
    var e := s.parents[s.orch.parentEntry];
    IssuedAt(c, s, e, j);
    IssuedPtr(c, s, j);
    ByFloor(c, s, j);
  }

  lemma ApplyIssue(c: Config, s: State)
    requires Wf(c) && Shape(c, s)
    ensures Enabled(c, s, Issue) == CanIssue(s)
    ensures CanIssue(s) ==> Apply(c, s, Issue) == IssueNode(c, s)
  {
    hide IssueNode;
  }

  lemma IssueParts(c: Config, s: State)
    requires Wf(c) && Inv(c, s) && CanIssue(s)
    ensures Issuing(c, s) && s.orch.parentEntry == Slot(s.orch.issued, c.parentEntries)
    ensures s.orch.parentEntry < |s.parents| && EntryShape(s.parents[s.orch.parentEntry])
    ensures IssueNode(c, s).parents == s.parents[s.orch.parentEntry := IssuedEntry(c, s, s.parents[s.orch.parentEntry])]
  {
    hide Slot, Div, SyncsOk, EntriesOk, NodesOk, BufferOk, CoordsOk, ScanOk, IssuedEntry, Bump, PageShape, CoordShape;
  }

  /** The decision by the cache floor, in terms of the cursors. */
  lemma ByFloor(c: Config, s: State, j: nat)
    requires Wf(c) && Issuing(c, s) && NodeOf(c, s.orch.issued) > 0 && 0 < j < PARENTS
    ensures
      var y := s.orch.issued;
      var x := ParentId(c, y, j);
      && (Cached(s, x) <==> InBuffer(c, s.orch, x))
      && ParentRequest(c, s, y, j) == (if InBuffer(c, s.orch, x) then Nop else Read(x))
      && ParentPtr(c, s, y, j) == (if InBuffer(c, s.orch, x) then NodePtr(EntryOf(c, x), RowOf(c, x))
                                   else ReadPtr(s.orch.parentEntry, j - 1, RowOf(c, x)))
      && ParentSync(c, s, y, j)
         == (if !InBuffer(c, s.orch, x) then NotNodeBuffer
             else if y - x < c.batchSize * c.batchCount then LocalNode else NodeIdx(EntryOf(c, x)))
  {
    hide Slot, Div, EntryShape, PageShape, CoordShape, Sub64;
    var o, y := s.orch, s.orch.issued;
    var x := ParentId(c, y, j);
    ParentBefore(c, y, j);
    SlotIsMod(o.cacheMin, c.nodesPerPage);
    SlotIsMod(o.tailNode, c.nodesPerPage);
    SlotOfSlot(x, c.layerSize, c.nodesPerPage);
    SubIs(y, x);
    if Cached(s, x) { CacheOffset(c, s, x); }
  }

  /** A coordinator copies exactly the labels it does not pass on by pointer. */
  lemma CopiedChoice(c: Config, r: Run, n: nat, k: nat, j: nat)
    requires Wf(c) && IsRun(c, r) && n < |r.steps| && r.steps[n] == Copy(k) && j < PARENTS
    ensures CanCopy(c, r.states[n], k) && k < |r.states[n].coords| == |r.states[n + 1].coords|
    ensures
      var q, q' := r.states[n].coords[k], r.states[n + 1].coords[k];
      && q.idx == Slot(q.node, c.parentEntries) && EntryShape(r.states[n].parents[q.idx])
      && q.batchIdx < |q'.cells| && q.count < |q'.cells[q.batchIdx]| && |q'.cells[q.batchIdx][q.count].ptrs| == PARENTS
      && var e := r.states[n].parents[q.idx];
         q'.cells[q.batchIdx][q.count].ptrs[j] == if e.syncs[j] == LocalNode then e.ptrs[j] else Null
  {
    hide Inv, Init, Apply, Slot, Div, PageShape, CopyNode, Load;
    var s, s' := r.states[n], r.states[n + 1];
    RunInv(c, r, n);
    ShapeOfInv(c, s);
    assert Next(c, s, r.steps[n], s');
    CopyParts(c, s, k, j);
  }

  lemma CopyParts(c: Config, s: State, k: nat, j: nat)
    requires Wf(c) && Inv(c, s) && Shape(c, s) && Enabled(c, s, Copy(k)) && j < PARENTS
    ensures CanCopy(c, s, k) && k < |s.coords| == |Apply(c, s, Copy(k)).coords|
    ensures
      var q, q' := s.coords[k], Apply(c, s, Copy(k)).coords[k];
      && q.idx == Slot(q.node, c.parentEntries) && EntryShape(s.parents[q.idx])
      && q.batchIdx < |q'.cells| && q.count < |q'.cells[q.batchIdx]| && |q'.cells[q.batchIdx][q.count].ptrs| == PARENTS
      && q'.cells[q.batchIdx][q.count].ptrs[j]
         == if s.parents[q.idx].syncs[j] == LocalNode then s.parents[q.idx].ptrs[j] else Null
  {
    hide Slot, Div, SyncsOk, EntriesOk, NodesOk, BufferOk, CellsOk, SeenOk, HasherOk, CountPast, ScanOk, BatchOk,
      OrchOk, RingsOk, PageShape, Load;
    assert CoordShape(c, k, s.coords[k]);
    assert CoordOk(c, s.orch.issued, s.coords[k]);
  }

  /** Whatever the disks still have to do, they can: an outstanding read or write may complete at any time. */
  lemma RequestsComplete(c: Config, r: Run, n: nat)
    requires Wf(c) && IsRun(c, r) && n < |r.states|
    ensures
      var s := r.states[n];
      && (forall e: nat, j: nat :: e < |s.parents| && j in s.parents[e].pending ==> Enabled(c, s, ReadArrives(e, j)))
      && (forall e: nat :: e < |s.nodes| && s.nodes[e].writing ==> Enabled(c, s, WriteArrives(e)))
  {
    hide Inv, Slot, Div;
    var s := r.states[n];
    RunInv(c, r, n);
    forall e: nat, j: nat | e < |s.parents| && j in s.parents[e].pending ensures Enabled(c, s, ReadArrives(e, j)) {
      ReadPending(c, s, e, j);
    }
  }

  /** Every entry of the parent buffer belongs to a node of the parent ring's window. */
  lemma EntryOwner(c: Config, lo: nat, e: nat) returns (y: nat)
    requires Wf(c) && e < c.parentEntries
    ensures lo <= y < lo + c.parentEntries && Slot(y, c.parentEntries) == e
  {
    var m := c.parentEntries;
    SlotIsMod(lo, m);
    var d := if e >= Slot(lo, m) then e - Slot(lo, m) else m + e - Slot(lo, m);
    SlotAdd(lo, d, m);
    y := lo + d;
  }

  lemma ReadPending(c: Config, s: State, e: nat, j: nat)
    requires Wf(c) && Inv(c, s) && e < |s.parents| && j in s.parents[e].pending
    ensures CanReadDone(s, e, j)
  {
    hide Slot, Div, SyncsOk, NodesOk, BufferOk, CoordsOk, ScanOk, BatchOk, RowIs, PageShape, CoordShape;
    var y := EntryOwner(c, s.orch.tailParents, e);
    assert EntryShape(s.parents[e]);
    assert EntryOk(c, s.parents[e], y, s.orch.tailWrite);
    assert NodeOf(c, y) > 0;
    assert PtrOk(c, s.parents[e], y, j + 1, s.orch.tailWrite);
  }
}
