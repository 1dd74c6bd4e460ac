/** Each poll of a stream, and each delivery by the reader, keeps what the stream keeps true. */
module Pc2Steps {
  import opened Pc2Tree
  import opened Pc2Planner
  import opened Pc2Pair
  import opened Pc2Blocks
  import opened Pc2Places
  import opened Pc2Writes
  import opened Pc2Streams
  import opened Pc2Stages
  import opened Pc2Plans
  import opened Pc2Polls

  /** Flying depends on the items and the buffers alone. */
  lemma StillFlies(c: Config, p: nat, r: nat, s: Stream, s': Stream, v: View)
    requires c.u.Ok() && c.layers > 0 && Flying(c, p, r, s, v)
    requires s'.workC == s.workC && s'.workR == s.workR && s'.contents == s.contents && s'.last == s.last
    ensures Flying(c, p, r, s', v)
  {
    hide BothBut, InputsHold, Distinct, Groups;
  }

  lemma Reading(c: Config, p: nat, r: nat, s: Stream, s': Stream, v: View, lost: nat)
    requires StreamOk(c, p, r, s, v, lost) && s.state == DataRead && s.awake
    requires s.workC.idx.node >= 0 ==>
      s' == s.(start := StartNode(c, p, r, s.workC.idx.node), valid := false, state := DataWait)
    ensures StreamOk(c, p, r, s', v, lost)
  {
    hide StartNode, Batch, Flying, PairOk, Before;
    Quiet(c, p, r, s, v, lost);
    assert s.workC.idx.node >= 0 by { FlyingNode(c, p, r, s, v); }
    StillFlies(c, p, r, s, s', v);
    StillQuiet(c, p, r, s', v, lost);
  }

  lemma FlyingNode(c: Config, p: nat, r: nat, s: Stream, v: View)
    requires c.u.Ok() && c.layers > 0 && Flying(c, p, r, s, v)
    ensures v.trace != [] && s.workC.idx == s.workR.idx && s.workC.idx.node >= 0
    ensures 1 <= s.workC.idx.layer <= c.u.height + 1 && s.workC.idx.node < Groups(c.u, s.workC.idx.layer)
    ensures s.workC.isLeaf == s.workR.isLeaf == (s.workC.idx.layer == 1)
    ensures s.last <==> s.workC.idx == NodeId(c.u.height + 1, 0)
  {
    hide BothBut, InputsHold, Groups;
  }

  /** The reader has filled the host's buffer. */
  lemma Delivered(c: Config, p: nat, r: nat, s: Stream, v: View, lost: nat)
    requires StreamOk(c, p, r, s, v, lost) && s.state == DataWait
    ensures StreamOk(c, p, r, s.(column := Batch(c, s.start), valid := true), v, lost)
  {
    hide StartNode, Batch, Flying, PairOk, Before;
    Quiet(c, p, r, s, v, lost);
    var s' := s.(column := Batch(c, s.start), valid := true);
    StillFlies(c, p, r, s, s', v);
    StillQuiet(c, p, r, s', v, lost);
  }

  /** The replica is encoded. */
  lemma Encoded(c: Config, p: nat, r: nat, s: Stream, s': Stream, v: View, lost: nat)
    requires StreamOk(c, p, r, s, v, lost) && s.state == DataWait && s.valid
    requires s' == s.(replica := Replica(c, LastLayer(c, s.column), s.start),
                      state := if c.treeROnly then HashColumnLeaves else HashColumn)
    ensures StreamOk(c, p, r, s', v, lost)
  {
    hide StartNode, Batch, Flying, PairOk, Before, Replica, LastLayer;
    Quiet(c, p, r, s, v, lost);
    StillFlies(c, p, r, s, s', v);
    assert s'.replica == ReplicaOf(c, s'.start);
    StillQuiet(c, p, r, s', v, lost);
  }

  /** Once the callback has run, the host goes on to the next item or is done. */
  lemma Waited(c: Config, p: nat, r: nat, s: Stream, v: View, lost: nat)
    requires StreamOk(c, p, r, s, v, lost) && s.state == HashWait && s.awake
    ensures StreamOk(c, p, r, s.(state := if s.last then Done else Idle), v, lost)
  {
    hide PairOk, BothBut, Expected, Node;
    Quiet(c, p, r, s, v, lost);
    StillQuiet(c, p, r, s.(state := if s.last then Done else Idle), v, lost);
  }

  /** The file offset that goes with a job of an item under way. */
  lemma PlaceThere(c: Config, kind: Kind, job: Job)
    requires c.Ok() && Valid(c.u, c.PlacesOf(kind).skip, job)
    ensures PlacesHave(c.u, c.PlacesOf(kind), job)
  {
    HavePlaces(c.u, c.PlacesOf(kind), job);
  }

  lemma ColumnBuffers(c: Config, p: nat, r: nat, s: Stream, e: Stream, v: View, job: Job, pos: int)
    requires c.Ok() && Flying(c, p, r, s, v) && s.workC.isLeaf && s.workC.idx.node >= 0 && !c.treeROnly
    requires AtStart(c, p, r, s) && s.column == Batch(c, s.start) && |s.columnD| == c.layers * c.LayerSize()
    requires e == ColumnEnd(c, p, s, s.workC, job, pos)
    ensures Flying(c, p, r, e, v) && e.columnD == Batch(c, s.start)
    ensures Holds(e.contents, s.workC.buf, ColumnBlock(c.u, c.colHash, c.layers, Batch(c, s.start)))
    ensures e.diskC == ColumnBlock(c.u, c.colHash, c.layers, Batch(c, s.start))
  {
    hide BothBut, Distinct, Groups, ColumnBlock, StartNode, Kept, Holds, Mem, Prefix;
    StillSize(s.columnD, s.column);
    var block := ColumnBlock(c.u, c.colHash, c.layers, Batch(c, s.start));
    KeptHolds(s.contents, s.workC.buf, block);
    FirstWrite(c, p, r, v, s.workC, s.workR, s.contents, block);
    HeldPrefix(e.contents, s.workC.buf, block);
  }

  /** The columns' write is the one that is wanted. */
  lemma ColumnsWanted(c: Config, p: nat, r: nat, n: nat)
    requires c.Ok() && r < c.u.streams && n < Groups(c.u, 1) && !c.treeROnly
    ensures Valid(c.u, 0, Columns(r, n)) && PlacesHave(c.u, c.c, Columns(r, n))
    ensures
      TheWrite(c, p, TreeC, Columns(r, n))
      == Write(p, TreeC, Columns(r, n), Pos(c.u, c.c, Columns(r, n)),
               ColumnBlock(c.u, c.colHash, c.layers, Batch(c, StartNode(c, p, r, n))))
  {
    hide Pos, Groups, ColumnBlock, StartNode, Batch;
    PlaceThere(c, TreeC, Columns(r, n));
  }

  lemma ColumnShape(r: nat, w: WorkItem, job: Job, pos: int)
    requires !job.Top? && job.stream == r
    ensures
      var q := ColumnPlan(w, job, pos);
      WakesLast(q) && Guarded(q) && (forall op :: op in q ==> Mine(r, op)) && Unlock !in q && |q| <= 10
  {
    hide WakesLast, Guarded, Mine, Then;
    WakeShape(r);
    var o4 := Then(true, SendC(job, pos), [Wake]);
    ThenShape(r, true, SendC(job, pos), [Wake]);
    var o3 := Then(true, CopyColumns(w.buf), o4);
    ThenShape(r, true, CopyColumns(w.buf), o4);
    ThenShape(r, true, HashColumns(w.buf), o3);
    ThenShape(r, true, Upload, Then(true, HashColumns(w.buf), o3));
  }

  lemma ColumnEndOk(c: Config, p: nat, r: nat, s: Stream, e: Stream, v: View, job: Job)
    requires c.Ok() && s.state == HashColumn && InState(c, p, r, s, v) && r < c.u.streams && PlacesHave(c.u, c.c, job)
    requires |s.columnD| == c.layers * c.LayerSize()
    requires s.workC.idx.node >= 0 ==> job == Columns(r, s.workC.idx.node)
    requires e == ColumnEnd(c, p, s, s.workC, job, Pos(c.u, c.c, job)).(state := HashColumnLeaves)
    ensures InState(c, p, r, e, v) && |e.columnD| == c.layers * c.LayerSize()
  {
    hide Flying, Pos, StartNode, Batch, ColumnBlock, Holds, Before, PlacesHave, PlacesOk, TheWrite, ColumnEnd;
    hide ReplicaOf;
    FlyingNode(c, p, r, s, v);
    var pos := Pos(c.u, c.c, job);
    var e' := ColumnEnd(c, p, s, s.workC, job, pos);
    ColumnBuffers(c, p, r, s, e', v, job, pos);
    StillFlies(c, p, r, e', e, v);
    ColumnsWanted(c, p, r, s.workC.idx.node);
    ColumnSent(c, p, s, s.workC, job, pos);
    BatchSize(c, s.start);
  }

  lemma BatchSize(c: Config, start: nat)
    requires c.Ok()
    ensures |Batch(c, start)| == (if c.treeROnly then 1 else c.layers) * c.LayerSize()
  {
  }

  /** The state is no business of the operations. */
  lemma ColumnState(c: Config, p: nat, s: Stream, w: WorkItem, job: Job, pos: int, s': Stream)
    requires c.u.Ok() && s' == s.(state := s'.state, awake := s'.awake)
    ensures ColumnEnd(c, p, s', w, job, pos) == ColumnEnd(c, p, s, w, job, pos).(state := s'.state)
  {
    hide Prefix, Kept, Over, ColumnBlock;
  }

  /** The column stage is asked for. */
  lemma ColumnStage(c: Config, p: nat, r: nat, s: Stream, s': Stream, v: View, lost: nat, job: Job)
    requires StreamOk(c, p, r, s, v, lost) && s.state == HashColumn && s.awake && r < c.u.streams
    requires s.workC.idx.node >= 0 ==> job == Columns(r, s.workC.idx.node)
    requires PlacesHave(c.u, c.c, job)
    requires s' == s.(state := HashColumnLeaves, awake := false, queue := ColumnPlan(s.workC, job, Pos(c.u, c.c, job)))
    ensures StreamOk(c, p, r, s', v, lost)
  {
    hide PairOk, Pos, RunOps, Safe, ColumnPlan, WakesLast, Guarded, PlacesHave, PlacesOk, ColumnEnd, Mine, InState;
    Quiet(c, p, r, s, v, lost);
    var plan := ColumnPlan(s.workC, job, Pos(c.u, c.c, job));
    var host := s'.(queue := []);
    ColumnRuns(c, p, r, host, s.workC, job, Pos(c.u, c.c, job));
    ColumnState(c, p, s, s.workC, job, Pos(c.u, c.c, job), host);
    var e := ColumnEnd(c, p, host, s.workC, job, Pos(c.u, c.c, job));
    ColumnEndOk(c, p, r, s, e, v, job);
    ColumnJob(c, p, r, s, v);
    ColumnShape(r, s.workC, job, Pos(c.u, c.c, job));
    Asked(c, p, r, s, s', plan, e, v, lost);
  }

  lemma ColumnJob(c: Config, p: nat, r: nat, s: Stream, v: View)
    requires c.u.Ok() && c.layers > 0 && s.state == HashColumn && InState(c, p, r, s, v)
    ensures s.workC.idx.node >= 0
  {
    hide Flying;
    FlyingNode(c, p, r, s, v);
  }

  lemma ColumnSent(c: Config, p: nat, s: Stream, w: WorkItem, job: Job, pos: int)
    requires c.u.Ok()
    ensures
      var e := ColumnEnd(c, p, s, w, job, pos);
      && e.sent == s.sent + [Write(p, TreeC, job, pos, e.diskC)] && e.state == s.state && e.workC == s.workC
      && e.start == s.start && e.replica == s.replica
  {
    hide Prefix, Kept, Over;
  }
}
