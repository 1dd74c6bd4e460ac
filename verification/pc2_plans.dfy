/** What the host asks the GPU to do in each stage, and where that leads. */
module Pc2Plans {
  import opened Pc2Tree
  import opened Pc2Planner
  import opened Pc2Blocks
  import opened Pc2Places
  import opened Pc2Writes
  import opened Pc2Streams

  /** An operation that is asked for on a condition, and those after it. */
  function Then(asked: bool, op: Op, rest: seq<Op>): seq<Op> { if asked then [op] + rest else rest }

  function Maybe(c: Config, p: nat, s: Stream, asked: bool, op: Op): Stream
    requires c.u.Ok() && c.layers > 0
  {
    if asked then Do(c, p, s, op) else s
  }

  lemma ThenRuns(c: Config, p: nat, r: nat, s: Stream, asked: bool, op: Op, rest: seq<Op>)
    requires c.u.Ok() && c.layers > 0
    ensures RunOps(c, p, s, Then(asked, op, rest)) == RunOps(c, p, Maybe(c, p, s, asked, op), rest)
    ensures Safe(c, p, r, s, Then(asked, op, rest))
            <==> (asked ==> Reads(c, p, r, s, op)) && Safe(c, p, r, Maybe(c, p, s, asked, op), rest)
  {
    hide Do, Reads;
    assert asked ==> ([op] + rest)[1..] == rest;
  }

  lemma WakeRuns(c: Config, p: nat, r: nat, s: Stream)
    requires c.u.Ok() && c.layers > 0
    ensures RunOps(c, p, s, [Wake]) == s.(awake := true) && Safe(c, p, r, s, [Wake])
  {
    assert [Wake][1..] == [];
  }

  /** Hash the columns, copy them out and send them. */
  function ColumnPlan(w: WorkItem, job: Job, pos: int): seq<Op> {
    Then(true, Upload,
         Then(true, HashColumns(w.buf), Then(true, CopyColumns(w.buf), Then(true, SendC(job, pos), [Wake]))))
  }

  /** Hash tree C's leaves over the columns, and tree R's from the replica. */
  function LeafPlan(c: Config, wc: WorkItem, wr: WorkItem, job: Job, pos: int): seq<Op> {
    Then(!c.treeROnly, LeavesC(wc.buf),
         Then(c.anyData || c.treeROnly, Patch,
              Then(true, LeavesR(wr.buf),
                   Then(!c.treeROnly, CopyC(wc.buf), Then(!c.treeROnly, SendC(job, pos), [Wake])))))
  }

  predicate WriteR(c: Config, w: WorkItem) { w.idx.layer > c.discards }

  /** Hash an inner node of both trees; the root is copied to the results as well. */
  function InnerPlan(c: Config, wc: WorkItem, wr: WorkItem, last: bool, job: Job, posC: int, posR: int): seq<Op> {
    Then(!c.treeROnly, HashC(wc.buf, wc.inputs),
         Then(true, HashR(wr.buf, wr.inputs), InnerSends(c, wc, wr, last, job, posC, posR)))
  }

  function InnerSends(c: Config, wc: WorkItem, wr: WorkItem, last: bool, job: Job, posC: int, posR: int): seq<Op> {
    Then(!c.treeROnly, CopyC(wc.buf),
         Then(last && !c.treeROnly, StashC,
              Then(last, StashR(wr.buf), Then(WriteR(c, wr), CopyR(wr.buf), Callback(c, wr, last, job, posC, posR)))))
  }

  function Callback(c: Config, wr: WorkItem, last: bool, job: Job, posC: int, posR: int): seq<Op> {
    Then(last, Unlock, Then(!c.treeROnly, SendC(job, posC), Then(WriteR(c, wr), SendR(job, posR), [Wake])))
  }

  /** Where the column stage leads. */
  function ColumnEnd(c: Config, p: nat, s: Stream, w: WorkItem, job: Job, pos: int): Stream
    requires c.u.Ok()
  {
    var columnD := Over(s.columnD, s.column);
    var contents := Kept(s.contents, w.buf, ColumnBlock(c.u, c.colHash, c.layers, columnD));
    var disk := Prefix(Mem(contents, w.buf), c.LayerSize());
    s.(columnD := columnD, contents := contents, diskC := disk, sent := s.sent + [Write(p, TreeC, job, pos, disk)],
       awake := true)
  }

  lemma ColumnRuns(c: Config, p: nat, r: nat, s: Stream, w: WorkItem, job: Job, pos: int)
    requires c.u.Ok() && c.layers > 0
    ensures RunOps(c, p, s, ColumnPlan(w, job, pos)) == ColumnEnd(c, p, s, w, job, pos)
    ensures Safe(c, p, r, s, ColumnPlan(w, job, pos))
  {
    hide RunOps, Safe, Then, Kept, Prefix, Over, ColumnBlock, Mem;
    var o4 := Then(true, SendC(job, pos), [Wake]);
    var o3 := Then(true, CopyColumns(w.buf), o4);
    var o2 := Then(true, HashColumns(w.buf), o3);
    ThenRuns(c, p, r, s, true, Upload, o2);
    var s1 := Maybe(c, p, s, true, Upload);
    ThenRuns(c, p, r, s1, true, HashColumns(w.buf), o3);
    var s2 := Maybe(c, p, s1, true, HashColumns(w.buf));
    ThenRuns(c, p, r, s2, true, CopyColumns(w.buf), o4);
    var s3 := Maybe(c, p, s2, true, CopyColumns(w.buf));
    ThenRuns(c, p, r, s3, true, SendC(job, pos), [Wake]);
    WakeRuns(c, p, r, Maybe(c, p, s3, true, SendC(job, pos)));
  }

  function LeafEnd(c: Config, p: nat, s: Stream, wc: WorkItem, wr: WorkItem, job: Job, pos: int): Stream
    requires c.u.Ok() && c.layers > 0
  {
    var columnD := if c.anyData || c.treeROnly then Patched(c, s.columnD, s.replica) else s.columnD;
    var first := if c.treeROnly then s.contents
                 else Kept(s.contents, wc.buf, HashPacked(c.u, c.f, Mem(s.contents, wc.buf)));
    var contents := Kept(first, wr.buf, HashStrided(c.u, c.f, Tail(c, columnD)));
    var disk := if c.treeROnly then s.diskC else Prefix(Mem(contents, wc.buf), c.GroupSize());
    s.(columnD := columnD, contents := contents, diskC := disk,
       sent := s.sent + (if c.treeROnly then [] else [Write(p, TreeC, job, pos, disk)]), awake := true)
  }

  lemma LeafRuns(c: Config, p: nat, r: nat, s: Stream, wc: WorkItem, wr: WorkItem, job: Job, pos: int)
    requires c.u.Ok() && c.layers > 0 && (!c.treeROnly ==> Reads(c, p, r, s, LeavesC(wc.buf)))
    requires s.workR.idx.node >= 0
    requires
      Tail(c, if c.anyData || c.treeROnly then Patched(c, s.columnD, s.replica) else s.columnD)
      == ReplicaOf(c, StartNode(c, p, r, s.workR.idx.node))
    ensures RunOps(c, p, s, LeafPlan(c, wc, wr, job, pos)) == LeafEnd(c, p, s, wc, wr, job, pos)
    ensures Safe(c, p, r, s, LeafPlan(c, wc, wr, job, pos))
  {
    hide RunOps, Safe, Then, Kept, Prefix, Patched, Tail, HashPacked, HashStrided, Mem, Holds, StartNode, ReplicaOf;
    hide HashPtrs, ColumnBlock, Mems, Over, Batch, InputsHold;
    var full, patch := !c.treeROnly, c.anyData || c.treeROnly;
    var o5 := Then(full, SendC(job, pos), [Wake]);
    var o4 := Then(full, CopyC(wc.buf), o5);
    var o3 := Then(true, LeavesR(wr.buf), o4);
    var o2 := Then(patch, Patch, o3);
    ThenRuns(c, p, r, s, full, LeavesC(wc.buf), o2);
    var s1 := Maybe(c, p, s, full, LeavesC(wc.buf));
    ThenRuns(c, p, r, s1, patch, Patch, o3);
    var s2 := Maybe(c, p, s1, patch, Patch);
    ThenRuns(c, p, r, s2, true, LeavesR(wr.buf), o4);
    var s3 := Maybe(c, p, s2, true, LeavesR(wr.buf));
    ThenRuns(c, p, r, s3, full, CopyC(wc.buf), o5);
    var s4 := Maybe(c, p, s3, full, CopyC(wc.buf));
    ThenRuns(c, p, r, s4, full, SendC(job, pos), [Wake]);
    WakeRuns(c, p, r, Maybe(c, p, s4, full, SendC(job, pos)));
  }

  /** Where sending an inner node leads. */
  function SendEnd(c: Config, p: nat, s: Stream, wc: WorkItem, wr: WorkItem, last: bool, job: Job, posC: int,
                   posR: int): Stream
  {
    var outC, outR := Prefix(Mem(s.contents, wc.buf), c.GroupSize()), Prefix(Mem(s.contents, wr.buf), c.GroupSize());
    s.(diskC := if c.treeROnly then s.diskC else outC, diskR := if WriteR(c, wr) then outR else s.diskR,
       stashC := if last && !c.treeROnly then outC else s.stashC, stashR := if last then outR else s.stashR,
       sent := s.sent + (if c.treeROnly then [] else [Write(p, TreeC, job, posC, outC)])
                + (if WriteR(c, wr) then [Write(p, TreeR, job, posR, outR)] else []),
       awake := true)
  }

  lemma CallbackRuns(c: Config, p: nat, r: nat, s: Stream, wr: WorkItem, last: bool, job: Job, posC: int, posR: int)
    requires c.u.Ok() && c.layers > 0
    ensures RunOps(c, p, s, Callback(c, wr, last, job, posC, posR))
            == s.(sent := s.sent + (if c.treeROnly then [] else [Write(p, TreeC, job, posC, s.diskC)])
                          + (if WriteR(c, wr) then [Write(p, TreeR, job, posR, s.diskR)] else []), awake := true)
    ensures Safe(c, p, r, s, Callback(c, wr, last, job, posC, posR))
  {
    hide RunOps, Safe, Then, Prefix, Mem, WriteR, Kept, HashPtrs, HashPacked, HashStrided, ColumnBlock, Mems, Over;
    var full, write := !c.treeROnly, WriteR(c, wr);
    var o7 := Then(write, SendR(job, posR), [Wake]);
    var o6 := Then(full, SendC(job, posC), o7);
    ThenRuns(c, p, r, s, last, Unlock, o6);
    ThenRuns(c, p, r, s, full, SendC(job, posC), o7);
    var s6 := Maybe(c, p, s, full, SendC(job, posC));
    ThenRuns(c, p, r, s6, write, SendR(job, posR), [Wake]);
    WakeRuns(c, p, r, Maybe(c, p, s6, write, SendR(job, posR)));
  }

  lemma SendRuns(c: Config, p: nat, r: nat, s: Stream, wc: WorkItem, wr: WorkItem, last: bool, job: Job, posC: int,
                 posR: int)
    requires c.u.Ok() && c.layers > 0
    ensures RunOps(c, p, s, InnerSends(c, wc, wr, last, job, posC, posR))
            == SendEnd(c, p, s, wc, wr, last, job, posC, posR)
    ensures Safe(c, p, r, s, InnerSends(c, wc, wr, last, job, posC, posR))
  {
    hide RunOps, Safe, Then, Prefix, Mem, WriteR, Callback, Kept, HashPtrs, HashPacked, HashStrided, ColumnBlock;
    hide Mems, Over;
    var full, write := !c.treeROnly, WriteR(c, wr);
    var rest := Callback(c, wr, last, job, posC, posR);
    var o4 := Then(write, CopyR(wr.buf), rest);
    var o3 := Then(last, StashR(wr.buf), o4);
    var o2 := Then(last && full, StashC, o3);
    ThenRuns(c, p, r, s, full, CopyC(wc.buf), o2);
    var s1 := Maybe(c, p, s, full, CopyC(wc.buf));
    ThenRuns(c, p, r, s1, last && full, StashC, o3);
    var s2 := Maybe(c, p, s1, last && full, StashC);
    ThenRuns(c, p, r, s2, last, StashR(wr.buf), o4);
    var s3 := Maybe(c, p, s2, last, StashR(wr.buf));
    ThenRuns(c, p, r, s3, write, CopyR(wr.buf), rest);
    CallbackRuns(c, p, r, Maybe(c, p, s3, write, CopyR(wr.buf)), wr, last, job, posC, posR);
  }

  /** The buffers after tree C's hash of an inner node, and after tree R's. */
  function AfterC(c: Config, contents: map<int, seq<int>>, wc: WorkItem): map<int, seq<int>>
    requires c.u.Ok()
  {
    if c.treeROnly then contents else Kept(contents, wc.buf, HashPtrs(c.u, c.f, Mems(contents, wc.inputs)))
  }

  function AfterR(c: Config, contents: map<int, seq<int>>, wr: WorkItem): map<int, seq<int>>
    requires c.u.Ok()
  {
    Kept(contents, wr.buf, HashPtrs(c.u, c.f, Mems(contents, wr.inputs)))
  }

  lemma InnerRuns(c: Config, p: nat, r: nat, s: Stream, last: bool, job: Job, posC: int, posR: int)
    requires c.u.Ok() && c.layers > 0
    requires !c.treeROnly ==> InputsHold(c, p, TreeC, r, s.workC, s.contents)
    requires InputsHold(c, p, TreeR, r, s.workR, AfterC(c, s.contents, s.workC))
    ensures
      var plan := InnerPlan(c, s.workC, s.workR, last, job, posC, posR);
      var contents := AfterR(c, AfterC(c, s.contents, s.workC), s.workR);
      && RunOps(c, p, s, plan)
         == SendEnd(c, p, s.(contents := contents), s.workC, s.workR, last, job, posC, posR)
      && Safe(c, p, r, s, plan)
  {
    hide RunOps, Safe, Then, Kept, HashPtrs, Mems, InputsHold, InnerSends, SendEnd;
    var wc, wr, full := s.workC, s.workR, !c.treeROnly;
    var sends := InnerSends(c, wc, wr, last, job, posC, posR);
    var o2 := Then(true, HashR(wr.buf, wr.inputs), sends);
    ThenRuns(c, p, r, s, full, HashC(wc.buf, wc.inputs), o2);
    var s1 := Maybe(c, p, s, full, HashC(wc.buf, wc.inputs));
    ThenRuns(c, p, r, s1, true, HashR(wr.buf, wr.inputs), sends);
    SendRuns(c, p, r, Maybe(c, p, s1, true, HashR(wr.buf, wr.inputs)), wc, wr, last, job, posC, posR);
  }
}
