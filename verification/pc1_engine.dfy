/** The loops of PC1's threads over the shared state, each with all other threads free to run at any
  * point in between.
  */
module Pc1Engine {
  import opened Common
  import opened RingMath
  import opened Pc1Graph
  import opened Pc1Machine
  import opened Pc1Invariant
  import opened Pc1Runs

  const ACTION_BATCH := 8

  datatype Thread = Main | CoordinatorOf(k: nat) | HasherOf(k: nat, i: nat) | Disks

  /** Which thread takes a step. */
  function Owner(step: Step): Thread {
    match step
    case Scan => Main
    case Begin(_) => Main
    case Issue => Main
    case Submit => Main
    case Written => Main
    case DropParent => Main
    case DropNode => Main
    case ReadArrives(_, _) => Disks
    case WriteArrives(_) => Disks
    case Copy(k) => CoordinatorOf(k)
    case TakeBack(k) => CoordinatorOf(k)
    case Open(k) => CoordinatorOf(k)
    case Tell(k) => CoordinatorOf(k)
    case Look(k, i) => HasherOf(k, i)
    case Hash(k, i) => HasherOf(k, i)
    case Finish(k, i) => HasherOf(k, i)
  }

  /** Whether a step can be taken now, as running code would find out. */
  predicate Ready(c: Config, s: State, step: Step)
    requires c.nodesPerPage > 0
  {
    match step
    case Scan => CanScan(s)
    case Begin(n) => CanBegin(c, s, n)
    case Issue => CanIssue(s)
    case Submit => CanSubmit(c, s)
    case Written => CanAdvance(c, s)
    case DropParent => CanReleaseParent(s)
    case DropNode => CanReleaseNode(s)
    case ReadArrives(e, j) => CanReadDone(s, e, j)
    case WriteArrives(e) => CanWriteDone(s, e)
    case Copy(k) => CanCopy(c, s, k)
    case TakeBack(k) => CanRecycle(c, s, k)
    case Open(k) => CanReserve(c, s, k)
    case Tell(k) => k < |s.coords|
    case Look(k, i) => CanLoad(s, k, i)
    case Hash(k, i) => CanHash(c, s, k, i)
    case Finish(k, i) => CanFinish(c, s, k, i)
  }

  /** What no other thread changes: the orchestrator's cursors, rings and counters; a coordinator's own
    * position and ring; a hasher's own position.
    */
  ghost predicate Kept(mine: Thread, s: State, s': State) {
    match mine
    case Main => s'.orch == s.orch && s'.nodeRing == s.nodeRing && s'.parentRing == s.parentRing && s'.syncs == s.syncs
    case CoordinatorOf(k) =>
      k < |s.coords| == |s'.coords| ==>
        var q, q' := s.coords[k], s'.coords[k];
        q' == q.(done := q'.done, hashers := q'.hashers) && |q'.hashers| == |q.hashers|
    case HasherOf(k, i) =>
      k < |s.coords| == |s'.coords| && i < |s.coords[k].hashers| == |s'.coords[k].hashers| ==>
        s'.coords[k].hashers[i] == s.coords[k].hashers[i]
    case Disks => true
  }

  lemma OthersLeave(c: Config, s: State, step: Step, mine: Thread)
    requires Wf(c) && Shape(c, s) && Enabled(c, s, step) && Owner(step) != mine
    ensures Kept(mine, s, Apply(c, s, step))
  {
    hide Shape, Enabled, Apply, Kept;
    match Owner(step)
    case Main => MainLeaves(c, s, step, mine);
    case Disks => DisksLeave(c, s, step, mine);
    case CoordinatorOf(_) => CoordinatorLeaves(c, s, step, mine);
    case HasherOf(_, _) => HasherLeaves(c, s, step, mine);
  }

  lemma MainLeaves(c: Config, s: State, step: Step, mine: Thread)
    requires Wf(c) && Shape(c, s) && Enabled(c, s, step) && Owner(step) != mine && Owner(step) == Main
    ensures Kept(mine, s, Apply(c, s, step))
  {
    hide Slot, Div, PageShape, EntryShape, CopiedCell, HashValue, Load, StoreLabel, ReserveParents, ReserveNodes,
      Bump, IssuedEntry;
  }

  lemma DisksLeave(c: Config, s: State, step: Step, mine: Thread)
    requires Wf(c) && Shape(c, s) && Enabled(c, s, step) && Owner(step) != mine && Owner(step) == Disks
    ensures Kept(mine, s, Apply(c, s, step))
  {
    hide Slot, Div, PageShape, EntryShape, CopiedCell, HashValue, Load, StoreLabel, ReserveParents, ReserveNodes,
      Bump, IssuedEntry;
  }

  lemma CoordinatorLeaves(c: Config, s: State, step: Step, mine: Thread)
    requires Wf(c) && Shape(c, s) && Enabled(c, s, step) && Owner(step) != mine && Owner(step).CoordinatorOf?
    ensures Kept(mine, s, Apply(c, s, step))
  {
    hide Slot, Div, PageShape, EntryShape, CopiedCell, HashValue, Load, StoreLabel, ReserveParents, ReserveNodes,
      Bump, IssuedEntry;
  }

  lemma HasherLeaves(c: Config, s: State, step: Step, mine: Thread)
    requires Wf(c) && Shape(c, s) && Enabled(c, s, step) && Owner(step) != mine && Owner(step).HasherOf?
    ensures Kept(mine, s, Apply(c, s, step))
  {
    hide Slot, Div, PageShape, EntryShape, CopiedCell, HashValue, Load, StoreLabel, ReserveParents, ReserveNodes,
      Bump, IssuedEntry;
  }

  /** The steps of one thread, in order. */
  ghost function Own(steps: seq<Step>, t: Thread): seq<Step> {
    if steps == [] then []
    else
      var last := steps[|steps| - 1];
      Own(steps[..|steps| - 1], t) + (if Owner(last) == t then [last] else [])
  }

  lemma OwnNext(steps: seq<Step>, t: Thread, step: Step)
    ensures Own(steps + [step], t) == if Owner(step) == t then Own(steps, t) + [step] else Own(steps, t)
  {
    assert (steps + [step])[..|steps|] == steps;
  }

  ghost function Times(step: Step, n: nat): (r: seq<Step>)
    ensures |r| == n
  {
    seq(n, _ => step)
  }

  lemma TimesNext(before: seq<Step>, step: Step, n: nat)
    ensures before + Times(step, n) + [step] == before + Times(step, n + 1)
    ensures before + Times(step, 0) == before
  {
  }

  ghost function Extend(r: Run, step: Step, s: State): Run { Run(r.states + [s], r.steps + [step]) }

  lemma ExtendRun(c: Config, r: Run, step: Step, s: State)
    requires Wf(c) && IsRun(c, r) && Next(c, r.states[|r.steps|], step, s)
    ensures IsRun(c, Extend(r, step, s))
  {
    hide Next, Init;
    var r' := Extend(r, step, s);
    forall n | 0 <= n < |r'.steps| ensures Next(c, r'.states[n], r'.steps[n], r'.states[n + 1]) {
      if n < |r.steps| {
        assert Next(c, r.states[n], r.steps[n], r.states[n + 1]);
        assert r'.states[n] == r.states[n] && r'.states[n + 1] == r.states[n + 1] && r'.steps[n] == r.steps[n];
      }
    }
  }

  lemma Taken(c: Config, r: Run, step: Step, s: State, s': State)
    requires Wf(c) && IsRun(c, r) && r.states[|r.steps|] == s && Shape(c, s) && Enabled(c, s, step)
    requires s' == Apply(c, s, step)
    ensures IsRun(c, Extend(r, step, s')) && Shape(c, s')
    ensures |Extend(r, step, s').steps| == |r.steps| + 1 && Extend(r, step, s').states[|r.steps| + 1] == s'
  {
    hide Inv, Apply, Enabled, Init, Shape;
    ExtendRun(c, r, step, s');
    RunInv(c, Extend(r, step, s'), |r.steps| + 1);
    ShapeOfInv(c, s');
  }

  /** There is room for a batch of this many pages: in the read FIFO, in both buffers and in what is left. */
  ghost predicate PagesFit(c: Config, s: State, fifoFree: nat, pages: int) {
    && pages * c.nodesPerPage <= fifoFree && s.nodeRing.size + pages <= c.pages - 1
    && s.parentRing.size + pages * c.nodesPerPage <= c.parentEntries - 1
    && s.orch.issued + pages * c.nodesPerPage <= c.total
  }

  /** The values that coordinators had published at these moments of a run, one after the other. */
  ghost predicate SeenAt(r: Run, moments: seq<nat>, from: nat) {
    forall k :: 0 <= k < |moments| ==> from <= moments[k] < |r.states| && k < |r.states[moments[k]].coords|
  }

  ghost predicate LeastSeen(r: Run, moments: seq<nat>, least: nat)
    requires SeenAt(r, moments, 0)
  {
    && (forall k :: 0 <= k < |moments| ==> least <= r.states[moments[k]].coords[k].published)
    && exists k :: 0 <= k < |moments| && least == r.states[moments[k]].coords[k].published
  }

  class Engine {
    const c: Config
    const env: nat -> seq<Step>         // what the other threads attempt, moment by moment
    var s: State
    var clock: nat
    ghost var r: Run

    /** The state is the last one of a run. */
    ghost predicate Valid()
      reads this
    {
      Wf(c) && IsRun(c, r) && |r.states| == |r.steps| + 1 && r.states[|r.steps|] == s
    }

    constructor (c: Config, s: State, env: nat -> seq<Step>)
      requires Wf(c) && Init(c, s)
      ensures Valid() && this.c == c && this.s == s
    {
      this.c, this.s, this.env, clock, r := c, s, env, 0, Run([s], []);
    }

    /** A step of the orchestrator. */
    method Orchestrate(step: Step)
      requires Wf(c) && Shape(c, s) && Enabled(c, s, step) && Owner(step) == Main
      modifies this`s
      ensures s == Apply(c, old(s), step)
    {
      hide Slot, Div, PageShape, CanBegin, CanSubmit, CanAdvance, CanReleaseNode, ScanHashed, BeginBatch, IssueNode,
        SubmitWrite, AdvanceWritten, ReleaseParent, ReleaseNode, ReadDone, WriteDone, CopyNode, Recycle, Reserve,
        Publish, LoadValid, HashNode, FinishBatch;
      match step {
        case Scan => s := ScanHashed(s);
        case Begin(n) => s := BeginBatch(c, s, n);
        case Issue => s := IssueNode(c, s);
        case Submit => s := SubmitWrite(c, s);
        case Written => s := AdvanceWritten(c, s);
        case DropParent => s := ReleaseParent(s);
        case DropNode => s := ReleaseNode(c, s);
      }
    }

    /** A step of the disks or of a coordinator. */
    method Supply(step: Step)
      requires Wf(c) && Shape(c, s) && Enabled(c, s, step) && (Owner(step) == Disks || Owner(step).CoordinatorOf?)
      modifies this`s
      ensures s == Apply(c, old(s), step)
    {
      hide Slot, Div, PageShape, CanBegin, CanSubmit, CanAdvance, CanReleaseNode, ScanHashed, BeginBatch, IssueNode,
        SubmitWrite, AdvanceWritten, ReleaseParent, ReleaseNode, ReadDone, WriteDone, CopyNode, Recycle, Reserve,
        Publish, LoadValid, HashNode, FinishBatch;
      match step {
        case ReadArrives(e, j) => s := ReadDone(c, s, e, j);
        case WriteArrives(e) => s := WriteDone(c, s, e);
        case Copy(k) => s := CopyNode(c, s, k);
        case TakeBack(k) => s := Recycle(c, s, k);
        case Open(k) => s := Reserve(s, k);
        case Tell(k) => s := Publish(s, k);
      }
    }

    /** A step of a hasher. */
    method Work(step: Step)
      requires Wf(c) && Shape(c, s) && Enabled(c, s, step) && Owner(step).HasherOf?
      modifies this`s
      ensures s == Apply(c, old(s), step)
    {
      hide Slot, Div, PageShape, CanBegin, CanSubmit, CanAdvance, CanReleaseNode, ScanHashed, BeginBatch, IssueNode,
        SubmitWrite, AdvanceWritten, ReleaseParent, ReleaseNode, ReadDone, WriteDone, CopyNode, Recycle, Reserve,
        Publish, LoadValid, HashNode, FinishBatch;
      match step {
        case Look(k, i) => s := LoadValid(s, k, i);
        case Hash(k, i) => s := HashNode(c, s, k, i);
        case Finish(k, i) => s := FinishBatch(c, s, k, i);
      }
    }

    /** One step of whatever thread. */
    method Take(step: Step)
      requires Valid() && Shape(c, s) && Enabled(c, s, step)
      modifies this`s, this`r
      ensures Valid() && Shape(c, s) && s == Apply(c, old(s), step)
      ensures r.steps == old(r.steps) + [step] && old(r.states) <= r.states
      ensures Own(r.steps, Owner(step)) == old(Own(r.steps, Owner(step))) + [step]
    {
      hide Shape, Enabled, Apply, IsRun, Init, Next;
      ghost var s0 := s;
      match Owner(step) {
        case Main => Orchestrate(step);
        case HasherOf(_, _) => Work(step);
        case _ => Supply(step);
      }
      Taken(c, r, step, s0, s);
      OwnNext(r.steps, Owner(step), step);
      r := Extend(r, step, s);
    }

    /** Time passes: other threads take the steps they attempt, as far as these are possible. */
    method Others(mine: Thread)
      requires Valid() && Shape(c, s)
      modifies this
      ensures Valid() && Shape(c, s) && Kept(mine, old(s), s) && old(r.states) <= r.states
      ensures Own(r.steps, mine) == old(Own(r.steps, mine))
    {
      hide Shape, Kept, Apply, Enabled, IsRun, Own;
      var steps := env(clock);
      clock := clock + 1;
      KeptNothing(mine, s);
      for n := 0 to |steps|
        invariant Valid() && Shape(c, s) && Kept(mine, old(s), s) && old(r.states) <= r.states
        invariant Own(r.steps, mine) == old(Own(r.steps, mine))
      {
        ghost var now := s;
        OwnNext(r.steps, mine, steps[n]);
        ReadyIsEnabled(c, s, steps[n]);
        if Owner(steps[n]) != mine && Ready(c, s, steps[n]) {
          OthersLeave(c, s, steps[n], mine);
          Take(steps[n]);
          KeptAgain(c, mine, old(s), now, s);
        }
      }
    }

    // ----- Orchestrator ---------------------------------------------------------------------

    /** read_batch's check of each cached parent's offset. */
    method CheckCache() returns (ok: bool)
      requires Valid() && Shape(c, s) && CanIssue(s)
      ensures ok
    {
      hide Inv, IsRun, Slot, Div, Sub64, Shape, Cached;
      ok := true;
      if NodeOf(c, s.orch.issued) > 0 {
        for j := 1 to PARENTS
          invariant ok
        {
          var x := ParentId(c, s.orch.issued, j);
          if Cached(s, x) {
            CacheCheck(c, r, |r.steps|, j);
            ok := ok && Sub64(x, s.orch.cacheMin) < s.orch.bufferCount + (s.orch.issued - s.orch.batchBase);
          }
        }
      }
    }

    /** Issue a batch of nodes: one or two pages, as far as there is room; `fifoFree` is the room that
      * the read FIFO happens to have.
      */
    method ReadBatch(fifoFree: nat) returns (ok: bool, pages: nat)
      requires Valid() && Shape(c, s) && AtRest(s) && s.orch.issued < c.total
      modifies this
      ensures Valid() && Shape(c, s) && AtRest(s) && ok
      ensures pages <= 2 && (pages > 0 ==> PagesFit(c, old(s), fifoFree, pages))
      ensures pages < 2 ==> !PagesFit(c, old(s), fifoFree, pages + 1)
      ensures
        Own(r.steps, Main) == old(Own(r.steps, Main))
          + (if pages == 0 then [] else [Begin(pages)] + Times(Issue, if pages == 1 then c.nodesPerPage
                                                                      else 2 * c.nodesPerPage))
      ensures s.orch.minHash == old(s.orch.minHash)
    {
      hide Inv, IsRun, Slot, Div, Shape, Kept, Reserved, Advance, ReserveParents, ReserveNodes, BufferedNodes,
        IssuedEntry, Bump, PagesFit, BatchNodes, CanBegin, Sub64, Enabled, Apply, Own, Times;
      ok := true;
      pages := RoomForPages(fifoFree);
      if pages == 0 {
        return;
      }
      EnabledBegin(c, s, fifoFree, pages);
      Take(Begin(pages));
      ok := IssueBatch(BatchNodes(c, pages));
    }

    /** The whole pages there is room for, at most two. */
    method RoomForPages(fifoFree: nat) returns (pages: nat)
      requires Valid() && Shape(c, s) && s.orch.issued <= c.total
      ensures pages <= 2 && (pages > 0 ==> PagesFit(c, s, fifoFree, pages))
      ensures pages < 2 ==> !PagesFit(c, s, fifoFree, pages + 1)
    {
      hide Inv, IsRun, Slot, Div, Shape, PagesFit;
      RoomLeft(c, r, |r.steps|);
      var nodeFree: nat, parentFree: nat := c.pages - 1 - s.nodeRing.size, c.parentEntries - 1 - s.parentRing.size;
      MulNat(nodeFree, c.nodesPerPage);
      var minFree := Min(Min(fifoFree, nodeFree * c.nodesPerPage), parentFree);
      var maxBatch := Min(Min(minFree, c.total - s.orch.issued), c.nodesPerPage * 2);
      pages := Div(maxBatch, c.nodesPerPage);
      WholePages(c, s, fifoFree, maxBatch, nodeFree);
    }

    /** Issue the nodes of a batch that has been reserved. */
    method IssueBatch(n: nat) returns (ok: bool)
      requires Valid() && Shape(c, s) && s.orch.scanned == 0 && s.orch.reserved == s.orch.issued + n
      modifies this
      ensures Valid() && Shape(c, s) && AtRest(s) && ok
      ensures Own(r.steps, Main) == old(Own(r.steps, Main)) + Times(Issue, n)
      ensures s.orch.minHash == old(s.orch.minHash)
    {
      hide Inv, IsRun, Slot, Div, Shape, Kept, IssuedEntry, Bump, Enabled, Apply, Own, Times;
      ghost var before := Own(r.steps, Main);
      TimesNext(before, Issue, 0);
      ok := true;
      for i := 0 to n
        invariant Valid() && Shape(c, s) && ok && s.orch.scanned == 0 && s.orch.minHash == old(s.orch.minHash)
        invariant s.orch.issued == old(s.orch.issued) + i && s.orch.reserved == old(s.orch.issued) + n
        invariant Own(r.steps, Main) == before + Times(Issue, i)
      {
        ghost var now := s;
        Others(Main);
        KeptMain(now, s);
        ok := CheckCache();
        EnabledIssue(c, s);
        Take(Issue);
        TimesNext(before, Issue, i);
      }
    }

    /** Hand hashed pages to the disk. A full FIFO makes a turn of the loop do nothing. */
    method WriteNodes(fifoFull: bool) returns (ok: bool, n: nat)
      requires Valid() && Shape(c, s) && AtRest(s)
      modifies this
      ensures Valid() && Shape(c, s) && AtRest(s) && ok
      ensures Own(r.steps, Main) == old(Own(r.steps, Main)) + Times(Submit, n) && n <= 8
      ensures n < 8 ==> fifoFull || PageOf(c, s.orch.headWrite) >= PageOf(c, s.orch.minHash)
      ensures fifoFull ==> n == 0
    {
      hide Inv, IsRun, Slot, Div, Shape, Kept, Enabled, Apply, CanSubmit, Own, Times;
      ok, n := true, 0;
      ghost var before := Own(r.steps, Main);
      TimesNext(before, Submit, 0);
      var actions := ACTION_BATCH;
      while actions > 0 && s.orch.headWrite < s.orch.minHash
        invariant Valid() && Shape(c, s) && AtRest(s) && ok && 0 <= actions
        invariant Own(r.steps, Main) == before + Times(Submit, n)
        invariant n <= ACTION_BATCH - actions && (n == ACTION_BATCH - actions || fifoFull || !CanSubmit(c, s))
        invariant fifoFull ==> n == 0
        decreases actions
      {
        actions := actions - 1;
        EnabledSubmit(c, s);
        if PageOf(c, s.orch.headWrite) < PageOf(c, s.orch.minHash) && !fifoFull {
          WriteCheck(c, r, |r.steps|);
          ok := ok && s.nodes[Div(s.orch.headWriteIdx, c.nodesPerPage)].valid == 0;
          Take(Submit);
          TimesNext(before, Submit, n);
          n := n + 1;
        }
        Elsewhere();
        EnabledSubmit(c, s);
      }
      EnabledSubmit(c, s);
      NothingToWrite(c, s);
    }

    /** Other threads run; the orchestrator's own variables stay as they are. */
    method Elsewhere()
      requires Valid() && Shape(c, s)
      modifies this
      ensures Valid() && Shape(c, s) && s.orch == old(s).orch && s.nodeRing == old(s).nodeRing
      ensures s.parentRing == old(s).parentRing && s.syncs == old(s).syncs && old(r.states) <= r.states
      ensures Own(r.steps, Main) == old(Own(r.steps, Main))
    {
      hide Shape, Kept, IsRun, Own;
      ghost var now := s;
      Others(Main);
      KeptMain(now, s);
    }

    /** Release parent entries that every coordinator is past, a few at a time. */
    method ReleaseParents() returns (n: nat)
      requires Valid() && Shape(c, s) && AtRest(s)
      modifies this
      ensures Valid() && Shape(c, s) && AtRest(s)
      ensures Own(r.steps, Main) == old(Own(r.steps, Main)) + Times(DropParent, n) && n <= 8
      ensures n < 8 ==> s.orch.tailParents >= s.orch.minHash
      ensures s.orch == old(s.orch).(tailParents := s.orch.tailParents) && old(r.states) <= r.states
    {
      hide Inv, IsRun, Slot, Div, Shape, Enabled, Apply, Bump, Own, Times;
      n := 0;
      ghost var before := Own(r.steps, Main);
      TimesNext(before, DropParent, 0);
      while n < ACTION_BATCH && s.orch.tailParents < s.orch.minHash
        invariant Valid() && Shape(c, s) && AtRest(s) && n <= ACTION_BATCH
        invariant Own(r.steps, Main) == before + Times(DropParent, n)
        invariant s.orch == old(s.orch).(tailParents := s.orch.tailParents) && old(r.states) <= r.states
      {
        EnabledParent(c, s);
        Take(DropParent);
        Elsewhere();
        TimesNext(before, DropParent, n);
        n := n + 1;
      }
    }

    /** Move the written tail past pages whose write has completed. */
    method AdvanceWrites() returns (n: nat)
      requires Valid() && Shape(c, s) && AtRest(s)
      modifies this
      ensures Valid() && Shape(c, s) && AtRest(s)
      ensures Own(r.steps, Main) == old(Own(r.steps, Main)) + Times(Written, n) && n <= 8
      ensures
        var o, o' := old(s.orch), s.orch;
        o' == o.(tailWrite := o'.tailWrite, tailWriteIdx := o'.tailWriteIdx, outstanding := o'.outstanding)
      ensures old(r.states) <= r.states
      ensures n < 8 ==>
        s.orch.tailWrite == s.orch.headWrite || s.nodes[EntryOf(c, s.orch.tailWrite)].valid == 0
    {
      hide Inv, IsRun, Slot, Div, Shape, Enabled, Apply, CanAdvance, Own, Times;
      n := 0;
      ghost var before := Own(r.steps, Main);
      TimesNext(before, Written, 0);
      while n < ACTION_BATCH && CanAdvance(c, s)
        invariant Valid() && Shape(c, s) && AtRest(s) && n <= ACTION_BATCH
        invariant Own(r.steps, Main) == before + Times(Written, n) && old(r.states) <= r.states
        invariant
          var o, o' := old(s.orch), s.orch;
          o' == o.(tailWrite := o'.tailWrite, tailWriteIdx := o'.tailWriteIdx, outstanding := o'.outstanding)
      {
        EnabledWritten(c, s);
        Take(Written);
        Elsewhere();
        TimesNext(before, Written, n);
        n := n + 1;
      }
      NothingWritten(c, r, |r.steps|);
    }

    /** Give up node-buffer entries, but a new batch of counters only once its references are consumed. */
    method ReleaseNodes(low: bool) returns (n: nat)
      requires Valid() && Shape(c, s) && AtRest(s)
      modifies this
      ensures Valid() && Shape(c, s) && AtRest(s)
      ensures Own(r.steps, Main) == old(Own(r.steps, Main)) + Times(DropNode, n) && n <= 8
      ensures s.orch == old(s.orch).(tailNode := s.orch.tailNode) && old(r.states) <= r.states
      ensures n < 8 && low ==>
        || s.orch.tailNode >= s.orch.minNode || s.orch.tailNode >= s.orch.tailWrite
        || (s.nodeRing.tail % SYNC_BATCH == 0 && s.nodeRing.tail / SYNC_BATCH < |s.syncs|
            && s.syncs[s.nodeRing.tail / SYNC_BATCH].references != s.syncs[s.nodeRing.tail / SYNC_BATCH].consumed)
    {
      hide Inv, IsRun, Slot, Div, Shape, Enabled, Apply, Own, Times;
      n := 0;
      ghost var before := Own(r.steps, Main);
      TimesNext(before, DropNode, 0);
      while n < ACTION_BATCH && s.orch.tailNode < s.orch.minNode && s.orch.tailNode < s.orch.tailWrite && low
        invariant Valid() && Shape(c, s) && AtRest(s) && n <= ACTION_BATCH
        invariant Own(r.steps, Main) == before + Times(DropNode, n)
        invariant s.orch == old(s.orch).(tailNode := s.orch.tailNode) && old(r.states) <= r.states
      {
        if s.nodeRing.tail % SYNC_BATCH == 0 {
          var b := s.nodeRing.tail / SYNC_BATCH;
          CounterThere(c, r, |r.steps|);
          if s.syncs[b].references != s.syncs[b].consumed {
            break;
          }
        }
        EnabledNode(c, s);
        Take(DropNode);
        Elsewhere();
        TimesNext(before, DropNode, n);
        n := n + 1;
      }
    }

    /** Load every coordinator's progress, one after the other; the least value loaded counts. */
    method LoadProgress() returns (ghost moments: seq<nat>)
      requires Valid() && Shape(c, s) && AtRest(s)
      modifies this
      ensures Valid() && Shape(c, s) && AtRest(s) && old(r.states) <= r.states
      ensures Own(r.steps, Main) == old(Own(r.steps, Main)) + Times(Scan, |c.hashers|)
      ensures |moments| == |c.hashers| && SeenAt(r, moments, old(|r.steps|)) && LeastSeen(r, moments, s.orch.minHash)
      ensures s.orch.minNode == Min(s.orch.minHash, s.orch.tailWrite)
      ensures s.nodeRing == old(s.nodeRing) && s.parentRing == old(s.parentRing)
      ensures s.orch.issued == old(s.orch.issued)
    {
      hide Inv, IsRun, Slot, Div, Shape, Enabled, Apply, Own, Times, SeenAt, LeastSeen;
      ghost var before := Own(r.steps, Main);
      TimesNext(before, Scan, 0);
      CoordCount(c, s);
      moments := [];
      SeenNone(r, |r.steps|);
      for n := 0 to |c.hashers|
        invariant Valid() && Shape(c, s) && Idle(s) && old(r.states) <= r.states
        invariant s.orch.scanned == if n == |c.hashers| then 0 else n
        invariant Own(r.steps, Main) == before + Times(Scan, n)
        invariant |moments| == n && SeenAt(r, moments, old(|r.steps|)) && SeenAt(r, moments, 0)
        invariant n > 0 ==> LeastSeen(r, moments, if n == |c.hashers| then s.orch.minHash else s.orch.scanMin)
        invariant n > 0 && n == |c.hashers| ==> s.orch.minNode == Min(s.orch.minHash, s.orch.tailWrite)
        invariant s.nodeRing == old(s.nodeRing) && s.parentRing == old(s.parentRing)
        invariant s.orch.issued == old(s.orch.issued)
      {
        CoordCount(c, s);
        EnabledScan(c, s);
        ghost var seen, least := s, s.orch.scanMin;
        ghost var moments' := moments + [|r.steps|];
        ghost var now := r;
        Take(Scan);
        Elsewhere();
        SeenMore(now, r, moments, old(|r.steps|), least);
        moments := moments';
        TimesNext(before, Scan, n);
      }
    }

    /** One turn of the main loop: load the progress, then each section once. Each goes on until it has done
      * its share or there is nothing left for it to do.
      */
    method Turn(fifoFree: nat, fifoFull: bool, low: bool)
      returns (ok: bool, pages: nat, submitted: nat, parents: nat, written: nat, nodes: nat)
      requires Valid() && Shape(c, s) && AtRest(s)
      modifies this
      ensures Valid() && Shape(c, s) && AtRest(s) && ok
      ensures
        Own(r.steps, Main) == old(Own(r.steps, Main)) + Times(Scan, |c.hashers|)
          + (if pages == 0 then [] else [Begin(pages)] + Times(Issue, if pages == 1 then c.nodesPerPage
                                                                      else 2 * c.nodesPerPage))
          + Times(Submit, submitted) + Times(DropParent, parents) + Times(Written, written) + Times(DropNode, nodes)
      ensures pages <= 2 && (pages > 0 ==> PagesFit(c, old(s), fifoFree, pages))
      ensures pages < 2 && old(s.orch.issued) < c.total ==> !PagesFit(c, old(s), fifoFree, pages + 1)
      ensures submitted < 8 ==> fifoFull || PageOf(c, s.orch.headWrite) >= PageOf(c, s.orch.minHash)
      ensures parents < 8 ==> s.orch.tailParents >= s.orch.minHash
      ensures nodes < 8 && low ==>
        || s.orch.tailNode >= s.orch.minNode || s.orch.tailNode >= s.orch.tailWrite
        || (s.nodeRing.tail % SYNC_BATCH == 0 && s.nodeRing.tail / SYNC_BATCH < |s.syncs|
            && s.syncs[s.nodeRing.tail / SYNC_BATCH].references != s.syncs[s.nodeRing.tail / SYNC_BATCH].consumed)
    {
      hide Inv, IsRun, Slot, Div, Shape, Enabled, Apply, Kept, Own, Times, PagesFit, CanReleaseNode, CanAdvance,
        CanSubmit;
      ghost var s0 := s;
      var _ := LoadProgress();
      SameRoom(c, s0, s, fifoFree);
      ok, pages := true, 0;
      if s.orch.issued < c.total {
        ok, pages := ReadBatch(fifoFree);
      }
      var sound;
      sound, submitted := WriteNodes(fifoFull);
      ok := ok && sound;
      parents := ReleaseParents();
      written := AdvanceWrites();
      nodes := ReleaseNodes(low);
      SpanCheck(c, r, |r.steps|);
      ok := ok && s.orch.issued - s.orch.tailNode < c.pages * c.nodesPerPage;
    }

    /** The orchestrator's main loop, for as many turns as it is given. Its runtime checks never fire,
      * and when it ends by itself every page is on disk with the right labels.
      */
    method Process(turns: nat, fifoFree: nat -> nat, fifoFull: nat -> bool, low: nat -> bool) returns (ok: bool,
          done: bool)
      requires Valid() && Shape(c, s) && AtRest(s)
      modifies this
      ensures Valid() && Shape(c, s) && ok
      ensures done ==> forall x: nat :: x < c.total ==> DiskRight(c, s, x)
      ensures !done ==> |Own(r.steps, Main)| >= old(|Own(r.steps, Main)|) + turns
    {
      hide Inv, IsRun, Slot, Div, Shape, Enabled, Apply, Kept, DiskRight, Own, Times, PagesFit, CanReleaseNode,
        CanAdvance, CanSubmit;
      ok, done := true, false;
      var turn, node := 0, s.orch.issued;
      while turn < turns && ok
        invariant Valid() && Shape(c, s) && AtRest(s) && ok && turn <= turns
        invariant |Own(r.steps, Main)| >= old(|Own(r.steps, Main)|) + turn
      {
        if node >= c.total && s.orch.tailWrite >= c.total && s.orch.outstanding <= 0 {
          AllOnDisk(c, r, |r.steps|);
          done := true;
          return;
        }
        node := s.orch.issued;
        HashersThere(c);
        var sound, pages, _, _, _, _ := Turn(fifoFree(turn), fifoFull(turn), low(turn));
        ok := ok && sound;
        turn := turn + 1;
      }
    }

    // ----- Coordinators ---------------------------------------------------------------------

    /** Other threads run; the coordinator's own position and ring stay as they are. */
    method ElsewhereCoord(k: nat)
      requires Valid() && Shape(c, s) && k < |c.hashers|
      modifies this
      ensures Valid() && Shape(c, s) && |s.coords| == |old(s).coords| == |c.hashers| && old(r.states) <= r.states
      ensures Position(s.coords[k]) == Position(old(s).coords[k])
      ensures Own(r.steps, CoordinatorOf(k)) == old(Own(r.steps, CoordinatorOf(k)))
    {
      hide Shape, Kept, IsRun, Own;
      ghost var now := s;
      CoordCount(c, s);
      Others(CoordinatorOf(k));
      CoordCount(c, s);
      KeptCoord(now, s, k);
    }

    /** Copy the next node's parents if they have all been read. */
    method CopyNext(k: nat) returns (copied: bool)
      requires Valid() && Shape(c, s) && k < |s.coords| && k < |c.hashers| && s.coords[k].filling
      requires s.coords[k].node < c.total
      modifies this
      ensures Valid() && Shape(c, s) && k < |s.coords| && old(r.states) <= r.states
      ensures Own(r.steps, CoordinatorOf(k))
              == old(Own(r.steps, CoordinatorOf(k))) + if copied then [Copy(k)] else []
      ensures if copied then OneMore(c, old(s).coords[k], s.coords[k])
              else s == old(s) && r == old(r) && Blocked(c, s, k)
    {
      hide Shape, IsRun, Inv, Enabled, Apply, Slot, Div, Own;
      CoordFacts(c, r, |r.steps|, k);
      copied := s.parents[s.coords[k].idx].valid >= READS;
      if copied {
        CopyEffect(c, s, k);
        Take(Copy(k));
      }
    }

    /** Wait, as long as there is patience, for the oldest batch to be hashed, and take it back. */
    method Reclaim(k: nat, patience: nat) returns (left: nat, ok: bool, ghost waits: seq<nat>)
      requires Valid() && Shape(c, s) && k < |s.coords| && k < |c.hashers|
      requires Waiting(c, s.coords[k])
      modifies this
      ensures Valid() && Shape(c, s) && k < |s.coords| && ok && old(r.states) <= r.states
      ensures if left > 0 then Position(s.coords[k]) == Released(c, Position(old(s).coords[k]))
              else Position(s.coords[k]) == Position(old(s).coords[k])
      ensures Own(r.steps, CoordinatorOf(k))
              == old(Own(r.steps, CoordinatorOf(k))) + if left > 0 then [TakeBack(k)] else []
      ensures left + |waits| == patience && Waits(c, r, k, waits, old(|r.steps|))
    {
      hide Shape, IsRun, Inv, Enabled, Apply, Slot, Div, Own, Waits;
      left, ok, waits := patience, true, [];
      NoWaits(c, r, k, |r.steps|);
      while left > 0
        invariant Valid() && Shape(c, s) && k < |s.coords| && ok && old(r.states) <= r.states
        invariant Position(s.coords[k]) == Position(old(s).coords[k])
        invariant Own(r.steps, CoordinatorOf(k)) == old(Own(r.steps, CoordinatorOf(k)))
        invariant left + |waits| == patience && Waits(c, r, k, waits, old(|r.steps|))
      {
        CoordFacts(c, r, |r.steps|, k);
        ok := ok && s.coords[k].ring.size > 0;
        ghost var now := r;
        if s.coords[k].done[s.coords[k].ring.tail] == |s.coords[k].hashers| {
          RecycleEffect(c, s, k);
          Take(TakeBack(k));
          WaitsLater(c, now, r, k, waits, old(|r.steps|));
          return;
        }
        ElsewhereCoord(k);
        WaitedOnce(c, now, r, k, waits, old(|r.steps|));
        waits := waits + [|now.steps|];
        left := left - 1;
      }
    }

    /** A place in the ring for the next batch, once the oldest is taken back if the ring is full. */
    method MakeRoom(k: nat, patience: nat) returns (left: nat, ok: bool, ghost waits: seq<nat>)
      requires Valid() && Shape(c, s) && k < |s.coords| && k < |c.hashers| && !s.coords[k].filling && patience > 0
      requires Behind(c, s.coords[k])
      modifies this
      ensures Valid() && Shape(c, s) && k < |s.coords| && ok && !s.coords[k].filling && old(r.states) <= r.states
      ensures left + |waits| == patience && Waits(c, r, k, waits, old(|r.steps|))
      ensures left > 0 ==>
        && !RingFull(c, s.coords[k]) && s.coords[k].node == old(s.coords[k].node) && Steady(c, s.coords[k])
        && Own(r.steps, CoordinatorOf(k))
           == old(Own(r.steps, CoordinatorOf(k)))
              + if Div(s.coords[k].node, c.batchSize) >= c.batchCount - 1 then [TakeBack(k)] else []
    {
      hide Shape, IsRun, Inv, Enabled, Apply, Slot, Div, Own, Waits, Steady, Behind;
      left, ok, waits := patience, true, [];
      NoWaits(c, r, k, |r.steps|);
      CoordFacts(c, r, |r.steps|, k);
      FullWhen(c, s.coords[k]);
      if RingFull(c, s.coords[k]) {
        left, ok, waits := Reclaim(k, patience);
        if left > 0 {
          SteadyAgain(c, old(s).coords[k], s.coords[k]);
        }
      }
    }

    /** A batch is full: hand it on, take one back if there is no room, and report every few batches. */
    method NextBatch(k: nat, patience: nat, updates: nat)
      returns (left: nat, updates': nat, ok: bool, ghost waits: seq<nat>)
      requires Valid() && Shape(c, s) && k < |s.coords| && k < |c.hashers| && !s.coords[k].filling && patience > 0
      requires Behind(c, s.coords[k]) && s.coords[k].node > 0 && Slot(s.coords[k].node, c.batchSize) == 0
      requires Counted(c, s.coords[k].node - 1, updates)
      modifies this
      ensures Valid() && Shape(c, s) && k < |s.coords| && ok && old(r.states) <= r.states
      ensures left + |waits| == patience && Waits(c, r, k, waits, old(|r.steps|))
      ensures left > 0 ==>
        && s.coords[k].filling && s.coords[k].node == old(s.coords[k].node) && Steady(c, s.coords[k])
        && Counted(c, s.coords[k].node, updates')
        && Own(r.steps, CoordinatorOf(k))
           == old(Own(r.steps, CoordinatorOf(k))) + AfterBatch(c, k, Div(s.coords[k].node, c.batchSize))
    {
      hide Shape, IsRun, Inv, Enabled, Apply, Slot, Div, Own, Waits, Steady, Behind, Counted;
      updates' := updates;
      ghost var before, node := Own(r.steps, CoordinatorOf(k)), s.coords[k].node;
      left, ok, waits := MakeRoom(k, patience);
      if left > 0 {
        ghost var now := r;
        ReserveEffect(c, s, k);
        SteadyOpen(c, s, k);
        Take(Open(k));
        updates' := updates + 1;
        BatchCounted(c, node, updates);
        if updates' == UPDATE_INTERVAL {
          SteadyTold(c, s, k);
          PublishEffect(c, s, k);
          Take(Tell(k));
          updates' := 0;
        }
        WaitsLater(c, now, r, k, waits, old(|r.steps|));
        assert Own(r.steps, CoordinatorOf(k)) == before + AfterBatch(c, k, Div(node, c.batchSize));
      }
    }

    /** Gather the parents of all nodes, batch by batch. */
    method GatherAll(k: nat, patience: nat) returns (left: nat, ok: bool, ghost waits: seq<nat>)
      requires Valid() && Shape(c, s) && k < |s.coords| && k < |c.hashers|
      requires s.coords[k].filling && s.coords[k].node == s.coords[k].completed == 0
      modifies this
      ensures Valid() && Shape(c, s) && k < |s.coords| && ok && old(r.states) <= r.states
      ensures left + |waits| == patience && Waits(c, r, k, waits, old(|r.steps|))
      ensures left > 0 ==>
        && s.coords[k].filling && s.coords[k].node == c.total && Steady(c, s.coords[k])
        && Own(r.steps, CoordinatorOf(k)) == old(Own(r.steps, CoordinatorOf(k))) + Gather(c, k, c.total)
    {
      hide Shape, IsRun, Inv, Enabled, Apply, Slot, Div, Own, Waits, Gather, Steady, Behind, Counted, AfterBatch,
        OneMore, Blocked;
      ok, waits, left := true, [], patience;
      var updates := 0;
      NoWaits(c, r, k, |r.steps|);
      ghost var before := Own(r.steps, CoordinatorOf(k));
      AtStart(c, s.coords[k], k, before);
      CoordFacts(c, r, |r.steps|, k);
      while left > 0 && s.coords[k].node < c.total
        invariant Valid() && Shape(c, s) && k < |s.coords| && ok && old(r.states) <= r.states
        invariant left + |waits| == patience && Waits(c, r, k, waits, old(|r.steps|))
        invariant left > 0 ==>
          && s.coords[k].filling && s.coords[k].node <= c.total && Steady(c, s.coords[k])
          && Counted(c, s.coords[k].node, updates)
          && Own(r.steps, CoordinatorOf(k)) == before + Gather(c, k, s.coords[k].node)
        decreases left, c.total - s.coords[k].node
      {
        ghost var now, q := r, s.coords[k];
        var copied := CopyNext(k);
        if copied {
          WaitsLater(c, now, r, k, waits, old(|r.steps|));
          CoordFacts(c, r, |r.steps|, k);
          OneMoreGathered(c, q, s.coords[k], k, before, updates);
          if !s.coords[k].filling {
            ghost var more;
            var sound;
            now := r;
            left, updates, sound, more := NextBatch(k, left, updates);
            ok := ok && sound;
            WaitsJoined(c, now, r, k, waits, more, old(|r.steps|));
            waits := waits + more;
          }
        } else {
          left := left - 1;
        }
        now := r;
        ghost var at := s.coords[k];
        ElsewhereCoord(k);
        SteadyKept(c, at, s.coords[k]);
        if copied {
          WaitsLater(c, now, r, k, waits, old(|r.steps|));
        } else {
          WaitedOnce(c, now, r, k, waits, old(|r.steps|));
          waits := waits + [|now.steps|];
        }
      }
    }

    /** A coordinator's thread: gather parents node by node, hand on full batches, take back finished
      * ones, report now and then, and at the end wait for all of them. It gives up only when it has waited as
      * often as it has patience, each time with nothing to do.
      */
    method RunCoordinator(k: nat, patience: nat) returns (ok: bool, done: bool, ghost waits: seq<nat>)
      requires Valid() && Shape(c, s) && k < |s.coords| && k < |c.hashers|
      requires s.coords[k].filling && s.coords[k].node == s.coords[k].completed == 0
      modifies this
      ensures Valid() && Shape(c, s) && k < |s.coords| && ok
      ensures done ==> s.coords[k].published == s.coords[k].completed == s.coords[k].node == c.total
      ensures done ==>
        Own(r.steps, CoordinatorOf(k)) == old(Own(r.steps, CoordinatorOf(k))) + Gather(c, k, c.total) + WindUp(c, k)
      ensures done || |waits| == patience
      ensures Waits(c, r, k, waits, old(|r.steps|))
    {
      hide Shape, IsRun, Inv, Enabled, Apply, Slot, Div, Own, Waits, Gather, Steady, Times, TakenBack;
      var left: nat;
      ghost var start := |r.steps|;
      done := false;
      left, ok, waits := GatherAll(k, patience);
      ghost var before, t: nat := Own(r.steps, CoordinatorOf(k)), 0;
      TimesNext(before, TakeBack(k), 0);
      if left > 0 { WindingUp(c, s.coords[k], 0); }
      while left > 0 && s.coords[k].completed < c.total
        invariant Valid() && Shape(c, s) && k < |s.coords| && ok && old(r.states) <= r.states
        invariant left + |waits| == patience && Waits(c, r, k, waits, start)
        invariant left > 0 ==>
          && s.coords[k].filling && s.coords[k].node == c.total && Unwound(c, s.coords[k], t)
          && Own(r.steps, CoordinatorOf(k)) == before + Times(TakeBack(k), t)
        decreases left, c.total - s.coords[k].completed
      {
        CoordFacts(c, r, |r.steps|, k);
        ghost var now, q := r, s.coords[k];
        ghost var more;
        var sound;
        left, sound, more := Reclaim(k, left);
        ok := ok && sound;
        WaitsJoined(c, now, r, k, waits, more, start);
        waits := waits + more;
        if left > 0 { UnwoundOnce(c, q, s.coords[k], t); }
        TimesNext(before, TakeBack(k), t);
        t := t + 1;
      }
      if left > 0 {
        CoordFacts(c, r, |r.steps|, k);
        AllUnwound(c, s.coords[k], t);
        ghost var now := r;
        PublishEffect(c, s, k);
        Take(Tell(k));
        WaitsLater(c, now, r, k, waits, start);
        done := true;
      }
    }

    // ----- Hashers --------------------------------------------------------------------------

    method ElsewhereHasher(k: nat, i: nat)
      requires Valid() && Shape(c, s) && k < |c.hashers| && i < c.hashers[k]
      modifies this
      ensures Valid() && Shape(c, s) && IsHasher(s, k, i) && IsHasher(old(s), k, i) && old(r.states) <= r.states
      ensures s.coords[k].hashers[i] == old(s).coords[k].hashers[i]
      ensures Own(r.steps, HasherOf(k, i)) == old(Own(r.steps, HasherOf(k, i)))
    {
      hide Shape, Kept, IsRun, Own;
      ghost var now := s;
      HasherCount(c, s, k, i);
      Others(HasherOf(k, i));
      HasherCount(c, s, k, i);
      KeptHasher(now, s, k, i);
    }

    /** A hasher's thread: wait for valid nodes, then hash batch after batch. It gives up only when it has
      * looked as often as it has patience, each time with nothing handed on.
      */
    method RunHasher(k: nat, i: nat, patience: nat) returns (done: bool, ghost waits: seq<nat>)
      requires Valid() && Shape(c, s) && k < |c.hashers| && i < c.hashers[k] && IsHasher(s, k, i)
      requires s.coords[k].hashers[i].pos == 0 && s.coords[k].hashers[i].node == 0
      modifies this
      ensures Valid() && Shape(c, s) && IsHasher(s, k, i)
      ensures done ==> s.coords[k].hashers[i].node == c.total
      ensures done ==>
        NoLooks(Own(r.steps, HasherOf(k, i)))
        == old(NoLooks(Own(r.steps, HasherOf(k, i)))) + Rounds(c, k, i, Div(c.total, c.batchSize))
      ensures done || |waits| == patience
      ensures NothingHandedOn(r, k, i, waits, old(|r.steps|))
    {
      hide Shape, IsRun, Inv, Enabled, Apply, Slot, Div, Own, NoLooks, Rounds, Times, NothingHandedOn;
      var left := patience;
      waits := [];
      ghost var before := NoLooks(Own(r.steps, HasherOf(k, i)));
      NoRounds(c, r, k, i, before);
      while left > 0 && s.coords[k].hashers[i].node < c.total
        invariant Valid() && Shape(c, s) && IsHasher(s, k, i) && s.coords[k].hashers[i].pos == 0
        invariant 0 <= left && left + |waits| == patience && old(r.states) <= r.states
        invariant NothingHandedOn(r, k, i, waits, old(|r.steps|))
        invariant Slot(s.coords[k].hashers[i].node, c.batchSize) == 0
        invariant NoLooks(Own(r.steps, HasherOf(k, i)))
               == before + Rounds(c, k, i, Div(s.coords[k].hashers[i].node, c.batchSize))
        decreases left, c.total - s.coords[k].hashers[i].node,
                  if s.coords[k].hashers[i].valid <= s.coords[k].hashers[i].node then 1 else 0
      {
        ghost var now, steps, node := r, Own(r.steps, HasherOf(k, i)), s.coords[k].hashers[i].node;
        if s.coords[k].hashers[i].valid <= s.coords[k].hashers[i].node {
          LookEffect(c, s, k, i);
          Take(Look(k, i));
          LookLeftOut(steps, k, i);
          NothingLater(now, r, k, i, waits, old(|r.steps|));
          if s.coords[k].hashers[i].valid <= s.coords[k].hashers[i].node {
            NothingThere(r, k, i, waits, old(|r.steps|));
            waits := waits + [|r.steps|];
            left := left - 1;
          }
        } else {
          HashBatch(k, i);
          RoundDone(c, steps, k, i, before, node);
          NothingLater(now, r, k, i, waits, old(|r.steps|));
        }
        now := r;
        ElsewhereHasher(k, i);
        NothingLater(now, r, k, i, waits, old(|r.steps|));
      }
      HasherAtMost(c, r, |r.steps|, k, i);
      done := s.coords[k].hashers[i].node >= c.total;
    }

    /** Hash one batch of nodes and count it as done. */
    method HashBatch(k: nat, i: nat)
      requires Valid() && Shape(c, s) && k < |c.hashers| && i < c.hashers[k] && IsHasher(s, k, i)
      requires s.coords[k].hashers[i].pos == 0 && s.coords[k].hashers[i].node < s.coords[k].hashers[i].valid
      modifies this
      ensures Valid() && Shape(c, s) && IsHasher(s, k, i) && s.coords[k].hashers[i].pos == 0
      ensures s.coords[k].hashers[i].node == old(s.coords[k].hashers[i].node) + c.batchSize
      ensures old(r.states) <= r.states
      ensures Own(r.steps, HasherOf(k, i))
              == old(Own(r.steps, HasherOf(k, i))) + Times(Hash(k, i), c.batchSize) + [Finish(k, i)]
    {
      hide Shape, IsRun, Inv, Enabled, Apply, Slot, Div, Own, Times;
      ghost var before := Own(r.steps, HasherOf(k, i));
      TimesNext(before, Hash(k, i), 0);
      for n := 0 to c.batchSize
        invariant Valid() && Shape(c, s) && IsHasher(s, k, i) && s.coords[k].hashers[i].pos == n
        invariant s.coords[k].hashers[i].node == old(s.coords[k].hashers[i].node) + n
        invariant n == 0 ==> s.coords[k].hashers[i].node < s.coords[k].hashers[i].valid
        invariant Own(r.steps, HasherOf(k, i)) == before + Times(Hash(k, i), n) && old(r.states) <= r.states
      {
        HashEffect(c, s, k, i);
        Take(Hash(k, i));
        ElsewhereHasher(k, i);
        TimesNext(before, Hash(k, i), n);
      }
      FinishEffect(c, s, k, i);
      Take(Finish(k, i));
    }
  }

  lemma ReadyIsEnabled(c: Config, s: State, step: Step)
    requires Wf(c)
    ensures c.nodesPerPage > 0 && (Ready(c, s, step) <==> Enabled(c, s, step))
  {
  }

  lemma KeptNothing(mine: Thread, s: State)
    ensures Kept(mine, s, s)
  {
  }

  lemma KeptAgain(c: Config, mine: Thread, s0: State, s1: State, s2: State)
    requires Kept(mine, s0, s1) && Kept(mine, s1, s2) && Shape(c, s1) && Shape(c, s2)
    ensures Kept(mine, s0, s2)
  {
  }

  lemma RoomLeft(c: Config, r: Run, n: nat)
    requires Wf(c) && IsRun(c, r) && n < |r.states|
    ensures r.states[n].nodeRing.size <= c.pages - 1 && r.states[n].parentRing.size <= c.parentEntries - 1
  {
    hide Slot, Div, SyncsOk, EntriesOk, NodesOk, BufferOk, CoordsOk, ScanOk, BatchOk, OrchOk;
    RunInv(c, r, n);
  }

  /** As many whole pages as the least of the limits has are the most that fit. */
  lemma WholePages(c: Config, s: State, fifoFree: nat, maxBatch: nat, nodeFree: nat)
    requires c.nodesPerPage > 0 && nodeFree == c.pages - 1 - s.nodeRing.size && s.orch.issued <= c.total
    requires s.parentRing.size <= c.parentEntries - 1
    requires maxBatch == Min(Min(Min(Min(fifoFree, nodeFree * c.nodesPerPage), c.parentEntries - 1 - s.parentRing.size),
                                 c.total - s.orch.issued), c.nodesPerPage * 2)
    ensures
      var pages := Div(maxBatch, c.nodesPerPage);
      && pages <= 2 && (pages > 0 ==> PagesFit(c, s, fifoFree, pages))
      && (pages < 2 ==> !PagesFit(c, s, fifoFree, pages + 1))
  {
    SlotIsMod(maxBatch, c.nodesPerPage);
    var pages := Div(maxBatch, c.nodesPerPage);
    hide Slot, Div;
    assert nodeFree * c.nodesPerPage == c.nodesPerPage * nodeFree && pages * c.nodesPerPage <= maxBatch;
    assert (pages + 1) * c.nodesPerPage > maxBatch;
    MulGap(c.nodesPerPage, nodeFree, pages);
    MulGap(c.nodesPerPage, 2, pages);
    MulGap(c.nodesPerPage, nodeFree, pages + 1);
    MulGap(c.nodesPerPage, pages + 1, nodeFree);
  }

  lemma EnabledBegin(c: Config, s: State, fifoFree: nat, n: nat)
    requires Wf(c)
    ensures Enabled(c, s, Begin(n)) == CanBegin(c, s, n)
    ensures 1 <= n <= 2 ==> BatchNodes(c, n) == if n == 1 then c.nodesPerPage else 2 * c.nodesPerPage
    ensures 1 <= n <= 2 && Idle(s) && PagesFit(c, s, fifoFree, n) ==> CanBegin(c, s, n)
    ensures Shape(c, s) && CanBegin(c, s, n) ==>
      var s' := Apply(c, s, Begin(n));
      && s'.orch.issued == s.orch.issued && s'.orch.reserved == s.orch.issued + BatchNodes(c, n)
      && s'.orch.scanned == s.orch.scanned && s'.orch.minHash == s.orch.minHash
  {
  }

  lemma EnabledIssue(c: Config, s: State)
    requires Wf(c)
    ensures Enabled(c, s, Issue) == CanIssue(s)
    ensures Shape(c, s) && CanIssue(s) ==>
      var s' := Apply(c, s, Issue);
      && s'.orch.issued == s.orch.issued + 1 && s'.orch.reserved == s.orch.reserved
      && s'.orch.scanned == s.orch.scanned && s'.orch.minHash == s.orch.minHash
  {
  }

  lemma KeptMain(s: State, s': State)
    ensures Kept(Main, s, s') ==>
      s'.orch == s.orch && s'.nodeRing == s.nodeRing && s'.parentRing == s.parentRing && s'.syncs == s.syncs
  {
  }

  ghost predicate DiskRight(c: Config, s: State, x: nat)
    requires Wf(c)
  {
    PageOf(c, x) in s.disk && RowOf(c, x) < |s.disk[PageOf(c, x)]| && RowIs(c, s.disk[PageOf(c, x)][RowOf(c, x)], x)
  }

  lemma AllOnDisk(c: Config, r: Run, n: nat)
    requires Wf(c) && IsRun(c, r) && n < |r.states| && r.states[n].orch.tailWrite >= c.total
    ensures forall x: nat :: x < c.total ==> DiskRight(c, r.states[n], x)
  {
    hide IsRun, Slot, Div, RowIs;
    forall x: nat | x < c.total ensures DiskRight(c, r.states[n], x) {
      FinalDisk(c, r, n, x);
    }
  }

  lemma WriteCheck(c: Config, r: Run, n: nat)
    requires Wf(c) && IsRun(c, r) && n < |r.states| && CanSubmit(c, r.states[n])
    ensures
      var s := r.states[n];
      var e := Div(s.orch.headWriteIdx, c.nodesPerPage);
      e < |s.nodes| && s.nodes[e].valid == 0
  {
    hide IsRun, Slot, Div, CanSubmit, Inv;
    RunInv(c, r, n);
    SomeCoord(c, r.states[n]);
    CursorsOrdered(c, r, n, 0);
  }

  lemma NothingToWrite(c: Config, s: State)
    requires Wf(c) && Idle(s)
    ensures CanSubmit(c, s) || PageOf(c, s.orch.headWrite) >= PageOf(c, s.orch.minHash)
  {
    if s.orch.headWrite >= s.orch.minHash {
      DivMonotone(s.orch.minHash, s.orch.headWrite, c.nodesPerPage);
    }
  }

  /** The written tail stays where it is only if nothing is outstanding or the oldest write has not completed. */
  lemma NothingWritten(c: Config, r: Run, n: nat)
    requires Wf(c) && IsRun(c, r) && n < |r.states|
    ensures
      var s := r.states[n];
      && |s.nodes| == c.pages
      && (Idle(s) && !CanAdvance(c, s) ==>
            s.orch.tailWrite == s.orch.headWrite || s.nodes[EntryOf(c, s.orch.tailWrite)].valid == 0)
  {
    hide IsRun, Slot, Div, SyncsOk, EntriesOk, NodesOk, BufferOk, ScanOk, BatchOk, CoordsOk, PageShape, EntryShape;
    RunInv(c, r, n);
    var o := r.states[n].orch;
    if o.tailWrite < o.headWrite {
      DivMonotone(o.tailNode, o.tailWrite, c.nodesPerPage);
      DivMonotone(o.tailWrite, o.headWrite, c.nodesPerPage);
      DivMonotone(o.headWrite, o.reserved, c.nodesPerPage);
      SlotIsMod(o.tailWrite, c.nodesPerPage);
      SlotIsMod(o.headWrite, c.nodesPerPage);
      SlotsDiffer(PageOf(c, o.tailWrite), PageOf(c, o.headWrite), c.pages);
    }
  }

  lemma CounterThere(c: Config, r: Run, n: nat)
    requires Wf(c) && IsRun(c, r) && n < |r.states|
    ensures r.states[n].nodeRing.tail / SYNC_BATCH < |r.states[n].syncs|
  {
    hide IsRun, Slot, Div, EntriesOk, NodesOk, BufferOk, ScanOk, BatchOk, CoordsOk, PageShape, EntryShape;
    RunInv(c, r, n);
  }

  lemma SomeCoord(c: Config, s: State)
    requires Wf(c) && Inv(c, s)
    ensures |s.coords| > 0
  {
  }

  lemma SpanCheck(c: Config, r: Run, n: nat)
    requires Wf(c) && IsRun(c, r) && n < |r.states|
    ensures r.states[n].orch.issued - r.states[n].orch.tailNode < c.pages * c.nodesPerPage
  {
    hide IsRun, Slot, Div, CanSubmit, Inv;
    RunInv(c, r, n);
    SomeCoord(c, r.states[n]);
    CursorsOrdered(c, r, n, 0);
  }

  lemma CoordCount(c: Config, s: State)
    requires Shape(c, s)
    ensures |s.coords| == |c.hashers|
  {
  }

  lemma EnabledScan(c: Config, s: State)
    requires Wf(c)
    ensures Enabled(c, s, Scan) == CanScan(s)
    ensures Shape(c, s) && CanScan(s) ==>
      var s' := Apply(c, s, Scan);
      var p := s.coords[s.orch.scanned].published;
      var least := if s.orch.scanned == 0 then p else Min(s.orch.scanMin, p);
      && s'.orch.issued == s.orch.issued && s'.orch.reserved == s.orch.reserved
      && s'.nodeRing == s.nodeRing && s'.parentRing == s.parentRing && s'.orch.scanMin == least
      && (if s.orch.scanned + 1 == |s.coords| then
            s'.orch.scanned == 0 && s'.orch.minHash == least && s'.orch.minNode == Min(least, s'.orch.tailWrite)
          else s'.orch.scanned == s.orch.scanned + 1)
  {
  }

  lemma SeenNone(r: Run, from: nat)
    ensures SeenAt(r, [], from) && SeenAt(r, [], 0)
  {
  }

  /** One more value loaded, at the end of the shorter run. */
  lemma SeenMore(r: Run, r': Run, moments: seq<nat>, from: nat, least: nat)
    requires SeenAt(r, moments, from) && from <= |r.steps| && |r.states| == |r.steps| + 1 && r.states <= r'.states
    requires |moments| < |r.states[|r.steps|].coords|
    requires SeenAt(r, moments, 0) && (moments != [] ==> LeastSeen(r, moments, least))
    ensures
      var moments' := moments + [|r.steps|];
      var p := r.states[|r.steps|].coords[|moments|].published;
      && SeenAt(r', moments', from) && SeenAt(r', moments', 0)
      && LeastSeen(r', moments', if moments == [] then p else Min(least, p))
  {
    var moments' := moments + [|r.steps|];
    var p := r.states[|r.steps|].coords[|moments|].published;
    var least' := if moments == [] then p else Min(least, p);
    assert forall k :: 0 <= k < |moments| ==> r'.states[moments'[k]] == r.states[moments[k]];
    assert r'.states[moments'[|moments|]] == r.states[|r.steps|];
    if least' == p {
      assert least' == r'.states[moments'[|moments|]].coords[|moments|].published;
    } else {
      var k :| 0 <= k < |moments| && least == r.states[moments[k]].coords[k].published;
      assert least' == r'.states[moments'[k]].coords[k].published;
    }
  }

  lemma SameRoom(c: Config, s: State, s': State, fifoFree: nat)
    requires s'.nodeRing == s.nodeRing && s'.parentRing == s.parentRing && s'.orch.issued == s.orch.issued
    ensures forall pages :: PagesFit(c, s, fifoFree, pages) <==> PagesFit(c, s', fifoFree, pages)
  {
  }

  lemma HashersThere(c: Config)
    requires Wf(c)
    ensures |c.hashers| > 0
  {
  }

  /** Between the sections of the main loop: no batch is half issued and no scan half done. */
  predicate AtRest(s: State) { Idle(s) && s.orch.scanned == 0 }

  /** The other sections' steps leave the issue cursor and the scan alone. */
  ghost predicate Section(s: State, s': State) {
    s'.orch.issued == s.orch.issued && s'.orch.reserved == s.orch.reserved && s'.orch.scanned == s.orch.scanned
  }

  lemma EnabledSubmit(c: Config, s: State)
    requires Wf(c)
    ensures Enabled(c, s, Submit) == CanSubmit(c, s)
    ensures CanSubmit(c, s) <==>
      Idle(s) && s.orch.headWrite < s.orch.minHash && PageOf(c, s.orch.headWrite) < PageOf(c, s.orch.minHash)
    ensures Shape(c, s) && CanSubmit(c, s) ==> Section(s, Apply(c, s, Submit))
  {
    hide Slot, Div;
  }

  lemma EnabledParent(c: Config, s: State)
    requires Wf(c)
    ensures Enabled(c, s, DropParent) == CanReleaseParent(s)
    ensures Shape(c, s) && CanReleaseParent(s) ==>
      Apply(c, s, DropParent).orch == s.orch.(tailParents := s.orch.tailParents + 1)
  {
    hide Slot, Div;
  }

  lemma EnabledWritten(c: Config, s: State)
    requires Wf(c)
    ensures Enabled(c, s, Written) == CanAdvance(c, s)
    ensures Shape(c, s) && CanAdvance(c, s) ==>
      var o, o' := s.orch, Apply(c, s, Written).orch;
      o' == o.(tailWrite := o'.tailWrite, tailWriteIdx := o'.tailWriteIdx, outstanding := o'.outstanding)
  {
    hide Slot, Div;
  }

  lemma EnabledNode(c: Config, s: State)
    requires Wf(c)
    ensures Enabled(c, s, DropNode) == CanReleaseNode(s)
    ensures Shape(c, s) && CanReleaseNode(s) ==>
      Apply(c, s, DropNode).orch == s.orch.(tailNode := s.orch.tailNode + 1)
  {
    hide Slot, Div;
  }

  const UPDATE_INTERVAL := 4

  /** What a coordinator alone changes: everything but the done counts and the hashers. */
  function Position(q: Coordinator): Coordinator { q.(done := [], hashers := []) }

  function Released(c: Config, q: Coordinator): Coordinator
    requires c.batchCount > q.ring.tail
  {
    q.(ring := Release(q.ring, c.batchCount), completed := q.completed + c.batchSize)
  }

  /** A coordinator takes back a batch when its ring is full, or at the end. */
  predicate Waiting(c: Config, q: Coordinator) {
    q.ring.tail < c.batchCount
    && ((!q.filling && RingFull(c, q)) || (q.filling && q.node == c.total && q.completed < c.total))
  }

  /** A coordinator can only wait: the next node's parents have not all been read, or it needs the oldest batch
    * back and not all hashers are done with it.
    */
  ghost predicate Blocked(c: Config, s: State, k: nat) {
    && k < |s.coords|
    && var q := s.coords[k];
       || (q.filling && q.node < c.total && q.idx < |s.parents| && s.parents[q.idx].valid < READS)
       || (Waiting(c, q) && q.ring.tail < |q.done| && q.done[q.ring.tail] != |q.hashers|)
  }

  /** Moments of a run at which the coordinator was blocked. */
  ghost predicate Waits(c: Config, r: Run, k: nat, waits: seq<nat>, from: nat) {
    forall w :: 0 <= w < |waits| ==> from <= waits[w] < |r.states| && Blocked(c, r.states[waits[w]], k)
  }

  lemma NoWaits(c: Config, r: Run, k: nat, from: nat)
    ensures Waits(c, r, k, [], from)
  {
  }

  lemma WaitsLater(c: Config, r: Run, r': Run, k: nat, waits: seq<nat>, from: nat)
    requires Waits(c, r, k, waits, from) && r.states <= r'.states
    ensures Waits(c, r', k, waits, from)
  {
    hide Blocked;
  }

  lemma WaitedOnce(c: Config, r: Run, r': Run, k: nat, waits: seq<nat>, from: nat)
    requires Waits(c, r, k, waits, from) && r.states <= r'.states && |r.states| == |r.steps| + 1 && from <= |r.steps|
    requires Blocked(c, r.states[|r.steps|], k)
    ensures Waits(c, r', k, waits + [|r.steps|], from)
  {
    hide Blocked;
  }

  lemma WaitsJoined(c: Config, r: Run, r': Run, k: nat, waits: seq<nat>, more: seq<nat>, from: nat)
    requires Waits(c, r, k, waits, from) && r.states <= r'.states && |r.states| == |r.steps| + 1 && from <= |r.steps|
    requires Waits(c, r', k, more, |r.steps|)
    ensures Waits(c, r', k, waits + more, from)
  {
    hide Blocked;
  }

  /** How many batches have been taken back when b are full: the ring keeps batchCount - 2 of them. */
  function TakenBack(c: Config, b: nat): nat {
    if b < c.batchCount - 1 || c.batchCount < 2 then 0 else b - (c.batchCount - 2)
  }

  /** A coordinator's steps after its bth batch is full. */
  ghost function AfterBatch(c: Config, k: nat, b: nat): seq<Step> {
    (if b >= c.batchCount - 1 then [TakeBack(k)] else []) + [Open(k)] + (if b % 4 == 0 then [Tell(k)] else [])
  }

  /** A coordinator's steps up to the mth node. */
  ghost function Gather(c: Config, k: nat, m: nat): seq<Step>
    requires c.batchSize > 0
  {
    if m == 0 then []
    else Gather(c, k, m - 1) + [Copy(k)]
         + if Slot(m, c.batchSize) == 0 then AfterBatch(c, k, Div(m, c.batchSize)) else []
  }

  /** At the end the batches still out are taken back, and the last progress is reported. */
  ghost function WindUp(c: Config, k: nat): seq<Step>
    requires c.batchSize > 0 && c.batchCount > 1
  {
    var b := Div(c.total, c.batchSize);
    Times(TakeBack(k), if b < c.batchCount - 2 then b else c.batchCount - 2) + [Tell(k)]
  }

  ghost predicate Steady(c: Config, q: Coordinator)
    requires c.batchSize > 0
  {
    Div(q.completed, c.batchSize) == TakenBack(c, Div(q.node, c.batchSize))
  }

  /** One batch is full that was not when the coordinator was steady. */
  ghost predicate Behind(c: Config, q: Coordinator)
    requires c.batchSize > 0
  {
    var b := Div(q.node, c.batchSize);
    b > 0 && Div(q.completed, c.batchSize) == TakenBack(c, b - 1)
  }

  ghost predicate Counted(c: Config, node: nat, updates: nat)
    requires c.batchSize > 0
  {
    updates == Div(node, c.batchSize) % 4
  }

  ghost predicate OneMore(c: Config, q: Coordinator, q': Coordinator)
    requires c.batchSize > 0
  {
    && q'.node == q.node + 1 && q'.completed == q.completed
    && (q'.filling <==> Slot(q.node + 1, c.batchSize) != 0)
  }

  ghost predicate Unwound(c: Config, q: Coordinator, t: nat)
    requires c.batchSize > 0
  {
    Div(q.completed, c.batchSize) == TakenBack(c, Div(c.total, c.batchSize)) + t
  }

  lemma AtStart(c: Config, q: Coordinator, k: nat, before: seq<Step>)
    requires Wf(c) && q.node == q.completed == 0
    ensures Steady(c, q) && Counted(c, q.node, 0) && before + Gather(c, k, q.node) == before
  {
  }

  lemma SteadyKept(c: Config, q: Coordinator, q': Coordinator)
    requires Wf(c) && Position(q') == Position(q)
    ensures Steady(c, q') == Steady(c, q) && q'.node == q.node && q'.filling == q.filling
  {
  }

  /** The ring is full exactly from the batch on that makes it so. */
  lemma FullWhen(c: Config, q: Coordinator)
    requires Wf(c) && Behind(c, q) && !q.filling
    requires q.ring.size == Div(q.node, c.batchSize) - Div(q.completed, c.batchSize)
    ensures RingFull(c, q) <==> Div(q.node, c.batchSize) >= c.batchCount - 1
    ensures !RingFull(c, q) ==> Steady(c, q)
  {
    hide Div;
  }

  lemma SteadyAgain(c: Config, q: Coordinator, q': Coordinator)
    requires Wf(c) && Behind(c, q) && Div(q.node, c.batchSize) >= c.batchCount - 1 && q.ring.tail < c.batchCount
    requires Position(q') == Released(c, Position(q)) && q.ring.size == c.batchCount - 1
    ensures Steady(c, q') && !RingFull(c, q') && q'.node == q.node && q'.filling == q.filling
  {
    assert Div(q.completed + c.batchSize, c.batchSize) == Div(q.completed, c.batchSize) + 1;
    hide Div;
  }

  lemma SteadyOpen(c: Config, s: State, k: nat)
    requires Wf(c) && Shape(c, s) && Enabled(c, s, Open(k)) && Steady(c, s.coords[k])
    ensures
      var q' := Apply(c, s, Open(k)).coords[k];
      Steady(c, q') && q'.node == s.coords[k].node
  {
    hide Slot, Div, PageShape, EntryShape;
  }

  lemma SteadyTold(c: Config, s: State, k: nat)
    requires Wf(c) && Shape(c, s) && k < |s.coords| && Steady(c, s.coords[k])
    ensures
      var q' := Apply(c, s, Tell(k)).coords[k];
      Steady(c, q') && q'.node == s.coords[k].node && q'.filling == s.coords[k].filling
  {
    hide Slot, Div, PageShape, EntryShape;
  }

  /** A full batch is one more to report; every fourth is the time to do it. */
  lemma BatchCounted(c: Config, node: nat, updates: nat)
    requires Wf(c) && node > 0 && Slot(node, c.batchSize) == 0 && Counted(c, node - 1, updates)
    ensures Div(node, c.batchSize) % 4 == 0 <==> updates + 1 == UPDATE_INTERVAL
    ensures Counted(c, node, if updates + 1 == UPDATE_INTERVAL then 0 else updates + 1)
  {
    SlotNext(node - 1, c.batchSize);
    hide Slot, Div;
  }

  lemma OneMoreGathered(c: Config, q: Coordinator, q': Coordinator, k: nat, before: seq<Step>, updates: nat)
    requires Wf(c) && Steady(c, q) && OneMore(c, q, q') && Counted(c, q.node, updates)
    ensures q'.node == q.node + 1
    ensures
      before + Gather(c, k, q.node) + [Copy(k)]
        + (if q'.filling then [] else AfterBatch(c, k, Div(q'.node, c.batchSize)))
      == before + Gather(c, k, q'.node)
    ensures if q'.filling then Steady(c, q') && Counted(c, q'.node, updates)
            else Behind(c, q') && q'.node > 0 && Slot(q'.node, c.batchSize) == 0 && Counted(c, q'.node - 1, updates)
  {
    SlotNext(q.node, c.batchSize);
    hide Slot, Div, AfterBatch;
  }

  lemma WindingUp(c: Config, q: Coordinator, t: nat)
    requires Wf(c) && Steady(c, q) && q.node == c.total && t == 0
    ensures Unwound(c, q, t)
  {
  }

  lemma UnwoundOnce(c: Config, q: Coordinator, q': Coordinator, t: nat)
    requires Wf(c) && Unwound(c, q, t) && q.ring.tail < c.batchCount
    requires Position(q') == Released(c, Position(q))
    ensures Unwound(c, q', t + 1)
    ensures q'.node == q.node && q'.filling == q.filling && q'.completed == q.completed + c.batchSize
  {
    assert Div(q.completed + c.batchSize, c.batchSize) == Div(q.completed, c.batchSize) + 1;
  }

  lemma AllUnwound(c: Config, q: Coordinator, t: nat)
    requires Wf(c) && Unwound(c, q, t) && q.completed == c.total
    ensures
      var b := Div(c.total, c.batchSize);
      t == if b < c.batchCount - 2 then b else c.batchCount - 2
  {
  }

  lemma KeptCoord(s: State, s': State, k: nat)
    requires k < |s.coords| == |s'.coords| && Kept(CoordinatorOf(k), s, s')
    ensures Position(s'.coords[k]) == Position(s.coords[k])
  {
  }

  lemma KeptHasher(s: State, s': State, k: nat, i: nat)
    requires IsHasher(s, k, i) && IsHasher(s', k, i) && |s.coords| == |s'.coords|
    requires |s.coords[k].hashers| == |s'.coords[k].hashers| && Kept(HasherOf(k, i), s, s')
    ensures s'.coords[k].hashers[i] == s.coords[k].hashers[i]
  {
  }

  lemma HasherCount(c: Config, s: State, k: nat, i: nat)
    requires Shape(c, s) && k < |c.hashers| && i < c.hashers[k]
    ensures |s.coords| == |c.hashers| && |s.coords[k].hashers| == c.hashers[k] && IsHasher(s, k, i)
  {
    assert CoordShape(c, k, s.coords[k]);
  }

  /** What the coordinator's code relies on about its own variables. */
  lemma CoordFacts(c: Config, r: Run, n: nat, k: nat)
    requires Wf(c) && IsRun(c, r) && n < |r.states| && k < |c.hashers| && k < |r.states[n].coords|
    ensures
      var s := r.states[n];
      var q := s.coords[k];
      && q.idx < |s.parents| && |q.done| == c.batchCount && q.ring.tail < |q.done| && q.ring.head < |q.done|
      && q.completed <= q.node <= c.total && (q.filling ==> q.count < c.batchSize)
      && (q.filling || RingFull(c, q) ==> q.ring.size > 0)
      && q.ring.size == Div(q.node, c.batchSize) + (if q.filling then 1 else 0) - Div(q.completed, c.batchSize)
      && (q.filling ==> q.count == Slot(q.node, c.batchSize))
  {
    hide IsRun, Slot, Div, SyncsOk, EntriesOk, NodesOk, BufferOk, ScanOk, BatchOk, HasherOk, CountPast, CellsOk,
      PageShape, EntryShape;
    var s := r.states[n];
    RunInv(c, r, n);
    assert CoordShape(c, k, s.coords[k]);
    assert CoordOk(c, s.orch.issued, s.coords[k]);
    var q := s.coords[k];
    if q.filling { Within(q.nextValid, q.count, c.batchSize); }
  }

  /** Fewer than m behind a multiple of m. */
  lemma {:induction false} Within(x: nat, d: nat, m: nat)
    requires m > 0 && Slot(x, m) == 0 && d < m
    ensures Slot(x + d, m) == d && Div(x + d, m) == Div(x, m)
    decreases d
  {
    if d > 0 {
      Within(x, d - 1, m);
      SlotNext(x + d - 1, m);
    }
  }

  lemma RecycleEffect(c: Config, s: State, k: nat)
    requires Wf(c) && Shape(c, s) && k < |s.coords| && k < |c.hashers| && Waiting(c, s.coords[k])
    requires s.coords[k].ring.tail < |s.coords[k].done|
    requires s.coords[k].done[s.coords[k].ring.tail] == |s.coords[k].hashers|
    ensures Enabled(c, s, TakeBack(k))
    ensures
      var s' := Apply(c, s, TakeBack(k));
      k < |s'.coords| && Position(s'.coords[k]) == Released(c, Position(s.coords[k]))
  {
    hide Slot, Div, PageShape, EntryShape;
    assert CoordShape(c, k, s.coords[k]);
  }

  lemma CopyEffect(c: Config, s: State, k: nat)
    requires Wf(c) && Shape(c,
                            s) && k < |s.coords| && k < |c.hashers| && s.coords[k].filling && s.coords[k].node < c.total
    requires s.coords[k].idx < |s.parents| && s.parents[s.coords[k].idx].valid >= READS
    requires s.coords[k].count < c.batchSize && s.coords[k].count == Slot(s.coords[k].node, c.batchSize)
    ensures Enabled(c, s, Copy(k))
    ensures
      var s' := Apply(c, s, Copy(k));
      k < |s'.coords| && OneMore(c, s.coords[k], s'.coords[k])
  {
    SlotNext(s.coords[k].node, c.batchSize);
    hide Slot, Div, PageShape, CopiedCell;
    assert CoordShape(c, k, s.coords[k]);
  }

  lemma ReserveEffect(c: Config, s: State, k: nat)
    requires Wf(c) && Shape(c, s) && k < |s.coords| && k < |c.hashers| && !s.coords[k].filling && !RingFull(c,
          s.coords[k])
    ensures Enabled(c, s, Open(k))
    ensures
      var s' := Apply(c, s, Open(k));
      k < |s'.coords| && s'.coords[k].filling
  {
    hide Slot, Div, PageShape, EntryShape;
    assert CoordShape(c, k, s.coords[k]);
  }

  lemma PublishEffect(c: Config, s: State, k: nat)
    requires Wf(c) && Shape(c, s) && k < |s.coords|
    ensures Enabled(c, s, Tell(k))
    ensures
      var s' := Apply(c, s, Tell(k));
      k < |s'.coords| && s'.coords[k] == s.coords[k].(published := s.coords[k].completed)
  {
  }

  lemma LookEffect(c: Config, s: State, k: nat, i: nat)
    requires Wf(c) && Shape(c, s) && IsHasher(s, k, i)
    requires s.coords[k].hashers[i].pos == 0 && s.coords[k].hashers[i].valid <= s.coords[k].hashers[i].node
    ensures Enabled(c, s, Look(k, i))
    ensures
      var s' := Apply(c, s, Look(k, i));
      && IsHasher(s', k, i) && s'.coords[k].nextValid == s.coords[k].nextValid
      && s'.coords[k].hashers[i] == s.coords[k].hashers[i].(valid := s.coords[k].nextValid)
  {
  }

  /** A hasher's steps but for its looks at what has been handed on. */
  ghost function NoLooks(steps: seq<Step>): seq<Step> {
    if steps == [] then []
    else
      var last := steps[|steps| - 1];
      NoLooks(steps[..|steps| - 1]) + (if last.Look? then [] else [last])
  }

  /** m batches: a hash for each node, and then the report. */
  ghost function Rounds(c: Config, k: nat, i: nat, m: nat): seq<Step> {
    if m == 0 then [] else Rounds(c, k, i, m - 1) + Times(Hash(k, i), c.batchSize) + [Finish(k, i)]
  }

  /** Moments of a run at which the hasher had hashed all that was handed on. */
  ghost predicate NothingHandedOn(r: Run, k: nat, i: nat, waits: seq<nat>, from: nat) {
    forall w :: 0 <= w < |waits| ==>
      && from <= waits[w] < |r.states| && IsHasher(r.states[waits[w]], k, i)
      && r.states[waits[w]].coords[k].nextValid <= r.states[waits[w]].coords[k].hashers[i].node
  }

  lemma NothingLater(r: Run, r': Run, k: nat, i: nat, waits: seq<nat>, from: nat)
    requires NothingHandedOn(r, k, i, waits, from) && r.states <= r'.states
    ensures NothingHandedOn(r', k, i, waits, from)
  {
  }

  lemma NothingThere(r: Run, k: nat, i: nat, waits: seq<nat>, from: nat)
    requires NothingHandedOn(r, k, i, waits, from) && |r.states| == |r.steps| + 1 && from <= |r.steps|
    requires IsHasher(r.states[|r.steps|], k, i)
    requires r.states[|r.steps|].coords[k].nextValid <= r.states[|r.steps|].coords[k].hashers[i].node
    ensures NothingHandedOn(r, k, i, waits + [|r.steps|], from)
  {
  }

  lemma NoRounds(c: Config, r: Run, k: nat, i: nat, before: seq<Step>)
    requires Wf(c)
    ensures Slot(0, c.batchSize) == 0 && before + Rounds(c, k, i, Div(0, c.batchSize)) == before
    ensures NothingHandedOn(r, k, i, [], |r.steps|)
  {
  }

  lemma LookLeftOut(steps: seq<Step>, k: nat, i: nat)
    ensures NoLooks(steps + [Look(k, i)]) == NoLooks(steps)
  {
    assert (steps + [Look(k, i)])[..|steps|] == steps;
  }

  lemma {:induction false} NoLooksJoin(a: seq<Step>, b: seq<Step>)
    requires NoLookIn(b)
    ensures NoLooks(a + b) == NoLooks(a) + b
  {
    if b == [] {
      assert a + b == a;
    } else {
      var n := |b| - 1;
      assert (a + b)[..|a| + n] == a + b[..n];
      NoLooksJoin(a, b[..n]);
      assert b[..n] + [b[n]] == b && !b[n].Look?;
    }
  }

  lemma RoundDone(c: Config, steps: seq<Step>, k: nat, i: nat, before: seq<Step>, node: nat)
    requires Wf(c) && Slot(node, c.batchSize) == 0
    requires NoLooks(steps) == before + Rounds(c, k, i, Div(node, c.batchSize))
    ensures
      NoLooks(steps + Times(Hash(k, i), c.batchSize) + [Finish(k, i)])
      == before + Rounds(c, k, i, Div(node + c.batchSize, c.batchSize))
    ensures Slot(node + c.batchSize, c.batchSize) == 0
  {
    var hashes := Times(Hash(k, i), c.batchSize);
    assert Div(node + c.batchSize, c.batchSize) == Div(node, c.batchSize) + 1;
    assert NoLookIn(hashes) by { assert forall step <- hashes :: step == Hash(k, i); }
    hide Slot, Div, Times, NoLookIn, NoLooks;
    NoLooksJoin(steps, hashes);
    FinishKept(steps + hashes, k, i);
    var m := Div(node, c.batchSize);
    assert before + Rounds(c, k, i, m) + hashes + [Finish(k, i)]
        == before + (Rounds(c, k, i, m) + hashes + [Finish(k, i)]);
  }

  lemma FinishKept(steps: seq<Step>, k: nat, i: nat)
    ensures NoLooks(steps + [Finish(k, i)]) == NoLooks(steps) + [Finish(k, i)]
  {
    assert (steps + [Finish(k, i)])[..|steps|] == steps;
  }

  ghost predicate NoLookIn(steps: seq<Step>) { forall step <- steps :: !step.Look? }

  lemma HasherAtMost(c: Config, r: Run, n: nat, k: nat, i: nat)
    requires Wf(c) && IsRun(c, r) && n < |r.states| && IsHasher(r.states[n], k, i)
    ensures r.states[n].coords[k].hashers[i].node <= c.total
  {
    hide IsRun, Slot, Div, SyncsOk, EntriesOk, NodesOk, BufferOk, ScanOk, BatchOk, CountPast, CellsOk,
      PageShape, EntryShape;
    RunInv(c, r, n);
    var s := r.states[n];
    assert CoordShape(c, k, s.coords[k]);
    assert CoordOk(c, s.orch.issued, s.coords[k]);
    assert HasherOk(c, s.coords[k], s.coords[k].hashers[i]);
  }

  lemma HashEffect(c: Config, s: State, k: nat, i: nat)
    requires Wf(c) && Shape(c, s) && IsHasher(s, k, i) && k < |c.hashers|
    requires var h := s.coords[k].hashers[i]; h.pos < c.batchSize && (h.pos > 0 || h.node < h.valid)
    ensures Enabled(c, s, Hash(k, i))
    ensures
      var s' := Apply(c, s, Hash(k, i));
      && IsHasher(s', k, i) && s'.coords[k].hashers[i].pos == s.coords[k].hashers[i].pos + 1
      && s'.coords[k].hashers[i].node == s.coords[k].hashers[i].node + 1
  {
    hide Slot, Div, PageShape, EntryShape, HashValue, StoreLabel;
    assert CoordShape(c, k, s.coords[k]);
  }

  lemma FinishEffect(c: Config, s: State, k: nat, i: nat)
    requires Wf(c) && Shape(c, s) && IsHasher(s, k, i) && k < |c.hashers| && s.coords[k].hashers[i].pos == c.batchSize
    ensures Enabled(c, s, Finish(k, i))
    ensures
      var s' := Apply(c, s, Finish(k, i));
      && IsHasher(s', k, i) && s'.coords[k].hashers[i].pos == 0
      && s'.coords[k].hashers[i].node == s.coords[k].hashers[i].node
  {
    hide Slot, Div, PageShape, EntryShape;
    assert CoordShape(c, k, s.coords[k]);
  }
}
