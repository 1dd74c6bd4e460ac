/** Partition after partition: how a run of the streams starts and ends, and what stays from earlier ones. */
module Pc2History {
  import opened Pc2Tree
  import opened Pc2Planner
  import opened Pc2Pair
  import opened Pc2Blocks
  import opened Pc2Files
  import opened Pc2Places
  import opened Pc2Writes
  import opened Pc2Streams
  import opened Pc2Polls
  import opened Pc2Cpu
  import opened Pc2Logs
  import opened Pc2Result
  import opened Pc2Machine

  /** A stream that has been reset: schedulers anew, buffers as they are. */
  function Reset(c: Config, s: Stream): Stream {
    s.(state := Idle, last := false, awake := true, c := Agenda(Leaves(Shape(c.u)), map[]),
       r := Agenda(Leaves(Shape(c.u)), map[]), queue := [], sent := [])
  }

  function ResetAll(c: Config, m: Machine): Machine {
    m.(streams := seq(|m.streams|, r requires 0 <= r < |m.streams| => Reset(c, m.streams[r])))
  }

  ghost predicate StreamStopped(c: Config, s: Stream, lost: nat)
    requires c.u.Ok()
  {
    AllFree(Shape(c.u), s.pool, lost) && |s.columnD| == c.layers * c.LayerSize()
  }

  /** No stream is at work, and nothing of partition `n` or later has been sent. */
  ghost predicate Stopped(c: Config, n: nat, m: Machine, lost: nat) {
    && c.Ok() && |m.streams| == c.u.streams && ResultsMatch(c, m) && !m.lock.ByStream?
    && (forall r: nat :: r < c.u.streams ==> StreamStopped(c, m.streams[r], lost))
    && (forall w :: w in m.log ==> Sender(c.u, w.job) <= c.u.streams && w.part < n)
  }

  lemma ResetStream(c: Config, p: nat, r: nat, s: Stream, lost: nat)
    requires c.Ok() && StreamStopped(c, s, lost)
    ensures StreamOk(c, p, r, Reset(c, s), NewView(Shape(c.u)), lost)
  {
    hide PairOk, PlacesOk, AllFree, Leaves, Node;
    PairStart(Shape(c.u), s.pool, lost);
    StillQuiet(c, p, r, Reset(c, s), NewView(Shape(c.u)), lost);
  }

  lemma {:induction false} NothingFrom(u: Setup, log: seq<Write>, p: nat, k: nat)
    requires forall w :: w in log ==> w.part != p
    ensures From(u, log, p, k) == []
  {
    if log != [] { NothingFrom(u, log[..|log| - 1], p, k); }
  }

  /** A new partition starts. */
  lemma Restarted(c: Config, n: nat, m: Machine, lost: nat)
    requires Stopped(c, n, m, lost)
    ensures MachineOk(c, n, ResetAll(c, m), seq(c.u.streams, _ => NewView(Shape(c.u))), lost)
  {
    hide StreamOk, StreamStopped, PlacesOk, From, Slice, Leaves;
    forall r: nat | r < c.u.streams
      ensures StreamOk(c, n, r, ResetAll(c, m).streams[r], NewView(Shape(c.u)), lost)
    {
      ResetStream(c, n, r, m.streams[r], lost);
    }
    forall r: nat | r < c.u.streams ensures From(c.u, m.log, n, r) == [] {
      NothingFrom(c.u, m.log, n, r);
    }
  }

  /** A stream that is done has sent all it should, has its roots among the results, and has needed exactly
    * the bound's number of buffers; all but the two roots' are free for the next partition.
    */
  lemma StreamEnds(c: Config, p: nat, r: nat, s: Stream, v: View, lost: nat)
    requires StreamOk(c, p, r, s, v, lost) && s.state == Done
    ensures s.queue == [] && AllNodes(Shape(c.u), v.trace) && s.sent == Expected(c, p, r, v.trace)
    ensures StreamStopped(c, s, lost + 2) && s.pool.count == PairPeak(Shape(c.u)) + lost
    ensures c.u.height > 0 ==>
      var root := NodeId(c.u.height + 1, 0);
      && s.stashR == Node(c, p, TreeR, r, root)
      && (!c.treeROnly ==> s.stashC == Node(c, p, TreeC, r, root))
  {
    hide PairOk, PlacesOk, AllFree, Node, Safe, RunOps, AllNodes, Expected, BothBut, PairPeak;
    assert s.awake by { EmptyAwake(r, s); }
    Quiet(c, p, r, s, v, lost);
    PairEnd(Shape(c.u), v, s.c, s.r, s.pool, lost);
    RestFree(Shape(c.u), v, s.c, s.r, s.pool, lost);
  }

  lemma EmptyAwake(r: nat, s: Stream)
    requires QueueOk(r, s) && s.state != HashColumnLeaves && s.state != HashWait
    ensures s.awake && s.queue == []
  {
  }

  /** The result of a partition on the GPU. */
  lemma AllStop(c: Config, p: nat, m: Machine, views: seq<View>, lost: nat)
    requires MachineOk(c, p, m, views, lost) && forall r: nat :: r < c.u.streams ==> m.streams[r].state == Done
    ensures Stopped(c, p + 1, m, lost + 2)
    ensures forall r: nat :: r < c.u.streams ==>
      StreamDone(c, p, r, m.log) && m.streams[r].pool.count == PairPeak(Shape(c.u)) + lost
    ensures c.u.height > 0 ==> InputsOk(c, p, m.resultsC, m.resultsR)
  {
    hide StreamOk, PlacesOk, AllNodes, Expected, From, Slice, StreamStopped, Node, PairPeak;
    forall r: nat | r < c.u.streams
      ensures m.streams[r].queue == [] && StreamDone(c, p, r, m.log) && StreamStopped(c, m.streams[r], lost + 2)
      ensures m.streams[r].pool.count == PairPeak(Shape(c.u)) + lost
      ensures c.u.height > 0 ==>
        var root := NodeId(c.u.height + 1, 0);
        && Slice(c.u, m.resultsR, r) == Node(c, p, TreeR, r, root)
        && (!c.treeROnly ==> Slice(c.u, m.resultsC, r) == Node(c, p, TreeC, r, root))
    {
      StreamEnds(c, p, r, m.streams[r], views[r], lost);
    }
    if c.u.height > 0 {
      RootsAre(c, p, TreeR, m.resultsR);
      if !c.treeROnly { RootsAre(c, p, TreeC, m.resultsC); }
    }
  }

  lemma RootsAre(c: Config, p: nat, kind: Kind, results: seq<int>)
    requires c.u.Ok() && c.layers > 0 && |results| == c.u.streams * c.GroupSize()
    requires forall r: nat :: r < c.u.streams ==>
      Slice(c.u, results, r) == Node(c, p, kind, r, NodeId(c.u.height + 1, 0))
    ensures RootsIn(c.u, c.f, RunOf(c, p, kind, results))
  {
    hide Merkle, Slice;
    forall r: nat | r < c.u.streams
      ensures Slice(c.u, results, r)
              == Merkle(StreamTree(c.u, c.f, RunOf(c, p, kind, results).leaf(r)), c.u.height + 1, 0)
    {
      assert Slice(c.u, results, r) == Node(c, p, kind, r, NodeId(c.u.height + 1, 0));
    }
  }

  /** All streams have done their part of the first `n` partitions. */
  ghost predicate GpuPast(c: Config, log: seq<Write>, n: nat)
    requires c.u.Ok() && c.layers > 0
  {
    forall q: nat, r: nat :: q < n && r < c.u.streams ==> StreamDone(c, q, r, log)
  }

  /** The CPU's task: none, about to copy the results of a partition, or with its own copy of them. */
  datatype Cpu = Resting | Waiting(part: nat) | Copied(part: nat, inputC: seq<int>, inputR: seq<int>)

  /** What the CPU has found out about a partition. */
  datatype Upper = Upper(inputC: seq<int>, inputR: seq<int>, rootsC: seq<int>, rootsR: seq<int>)

  ghost predicate TopOk(c: Config, q: nat, log: seq<Write>, top: Upper)
    requires c.u.Ok() && c.layers > 0
  {
    && CpuDone(c, q, log, top.inputC, top.inputR) && (c.u.height > 0 ==> InputsOk(c, q, top.inputC, top.inputR))
    && RootsOk(c, top.inputR, top.rootsR) && (!c.treeROnly ==> RootsOk(c, top.inputC, top.rootsC))
  }

  /** The CPU is done with the first partitions, has the last of `n` in hand, or rests. */
  ghost predicate CpuOk(c: Config, m: Machine, n: nat, cpu: Cpu, tops: seq<Upper>)
    requires c.u.Ok() && c.layers > 0
  {
    && |tops| == (if cpu.Resting? then n else n - 1)
    && (forall q: nat :: q < |tops| ==> TopOk(c, q, m.log, tops[q]))
    && (forall q: nat :: q >= |tops| ==> From(c.u, m.log, q, c.u.streams) == [])
    && (m.lock == ByCpu <==> cpu.Waiting?)
    && match cpu
       case Resting => true
       case Waiting(q) => q == |tops| && (c.u.height > 0 ==> InputsOk(c, q, m.resultsC, m.resultsR))
       case Copied(q, inputC, inputR) => q == |tops| && (c.u.height > 0 ==> InputsOk(c, q, inputC, inputR))
  }

  /** Only one sender's writes of one partition have been added. */
  ghost predicate OnlyAdds(u: Setup, log: seq<Write>, log': seq<Write>, p: nat, k: nat) {
    forall q: nat, i: nat :: q != p || i != k ==> From(u, log', q, i) == From(u, log, q, i)
  }

  lemma StreamDoneKept(c: Config, q: nat, r: nat, log: seq<Write>, log': seq<Write>)
    requires c.u.Ok() && c.layers > 0 && StreamDone(c, q, r, log) && From(c.u, log', q, r) == From(c.u, log, q, r)
    ensures StreamDone(c, q, r, log')
  {
    hide AllNodes, Expected, From;
    var trace :| AllNodes(Shape(c.u), trace) && From(c.u, log, q, r) == Expected(c, q, r, trace);
    assert From(c.u, log', q, r) == Expected(c, q, r, trace);
  }

  lemma CpuDoneKept(c: Config, q: nat, log: seq<Write>, log': seq<Write>, inputC: seq<int>, inputR: seq<int>)
    requires c.u.Ok() && c.layers > 0 && CpuDone(c, q, log, inputC, inputR)
    requires From(c.u, log', q, c.u.streams) == From(c.u, log, q, c.u.streams)
    ensures CpuDone(c, q, log', inputC, inputR)
  {
    hide AllNodes, CpuWrites, From, AllSectors;
    var traceC, traceR :|
      && (!c.treeROnly ==> AllNodes(AllSectors(c.u, c.f, inputC), traceC))
      && AllNodes(AllSectors(c.u, c.f, inputR), traceR)
      && From(c.u, log, q, c.u.streams) == CpuLog(c, q, inputC, inputR, traceC, traceR);
  }

  lemma PastKept(c: Config, log: seq<Write>, log': seq<Write>, n: nat, p: nat, k: nat)
    requires c.u.Ok() && c.layers > 0 && GpuPast(c, log, n) && OnlyAdds(c.u, log, log', p, k)
    requires p >= n || k == c.u.streams
    ensures GpuPast(c, log', n)
  {
    hide From, StreamDone;
    forall q: nat, r: nat | q < n && r < c.u.streams ensures StreamDone(c, q, r, log') {
      assert StreamDone(c, q, r, log);
      StreamDoneKept(c, q, r, log, log');
    }
  }

  lemma TopsKept(c: Config, log: seq<Write>, log': seq<Write>, tops: seq<Upper>, p: nat, k: nat)
    requires c.u.Ok() && c.layers > 0 && OnlyAdds(c.u, log, log', p, k) && (p >= |tops| || k != c.u.streams)
    requires forall q: nat :: q < |tops| ==> TopOk(c, q, log, tops[q])
    ensures forall q: nat :: q < |tops| ==> TopOk(c, q, log', tops[q])
  {
    hide From, CpuDone, InputsOk, RootsOk;
    forall q: nat | q < |tops| ensures TopOk(c, q, log', tops[q]) {
      assert TopOk(c, q, log, tops[q]);
      CpuDoneKept(c, q, log, log', tops[q].inputC, tops[q].inputR);
    }
  }

  /** A step of a stream adds at most one write, of its own. */
  lemma SteppedLog(c: Config, p: nat, m: Machine, views: seq<View>, lost: nat, r: nat)
    requires MachineOk(c, p, m, views, lost) && r < c.u.streams && m.streams[r].queue != []
    ensures OnlyAdds(c.u, m.log, Stepped(c, p, m, r).log, p, r)
  {
    hide Exec, Prefix, Mem, Spliced, Guarded, InState, RunOps, Safe, PairOk, From, Slice, WakesLast;
    var s := m.streams[r];
    assert StreamOk(c, p, r, s, views[r], lost);
    assert Mine(r, s.queue[0]);
    forall q: nat, i: nat | q != p || i != r
      ensures From(c.u, Stepped(c, p, m, r).log, q, i) == From(c.u, m.log, q, i)
    {
      if s.queue[0].SendC? {
        FromNext(c.u, m.log, Write(p, TreeC, s.queue[0].job, s.queue[0].pos, s.diskC), q, i);
      } else if s.queue[0].SendR? {
        FromNext(c.u, m.log, Write(p, TreeR, s.queue[0].job, s.queue[0].pos, s.diskR), q, i);
      }
    }
  }

  /** What a stream or the host does without the CPU's lock is no business of the CPU's. */
  lemma CpuKept(c: Config, m: Machine, m': Machine, n: nat, cpu: Cpu, tops: seq<Upper>, p: nat, r: nat)
    requires c.u.Ok() && c.layers > 0 && CpuOk(c, m, n, cpu, tops) && r < c.u.streams
    requires OnlyAdds(c.u, m.log, m'.log, p, r)
    requires m.lock == ByCpu <==> m'.lock == ByCpu
    requires m.lock == ByCpu ==> m'.resultsC == m.resultsC && m'.resultsR == m.resultsR
    ensures CpuOk(c, m', n, cpu, tops)
  {
    hide From, TopOk, InputsOk;
    TopsKept(c, m.log, m'.log, tops, p, r);
  }

  lemma SteppedCpu(c: Config, p: nat, m: Machine, views: seq<View>, lost: nat, r: nat, n: nat, cpu: Cpu,
                   tops: seq<Upper>)
    requires MachineOk(c, p, m, views, lost) && r < c.u.streams && m.streams[r].queue != []
    requires CpuOk(c, m, n, cpu, tops)
    ensures CpuOk(c, Stepped(c, p, m, r), n, cpu, tops)
  {
    assert c.u.Ok() && c.layers > 0 && r < |m.streams|;
    hide Exec, MachineOk, From, TopOk, InputsOk, Stepped, CpuOk, OnlyAdds, Reads;
    SteppedOk(c, p, m, views, lost, r);
    SteppedLog(c, p, m, views, lost, r);
    SteppedLock(c, p, m, r);
    CpuKept(c, m, Stepped(c, p, m, r), n, cpu, tops, p, r);
  }

  lemma SteppedLock(c: Config, p: nat, m: Machine, r: nat)
    requires c.u.Ok() && c.layers > 0 && r < |m.streams| && m.streams[r].queue != []
    ensures Stepped(c, p, m, r).lock == m.lock || Stepped(c, p, m, r).lock == Free
  {
    hide Exec, Prefix, Mem, Spliced;
  }

  /** The CPU's writes of a partition are added to the log. */
  lemma CpuAdds(c: Config, m: Machine, n: nat, cpu: Cpu, tops: seq<Upper>, ws: seq<Write>, top: Upper,
                traceC: seq<NodeId>, traceR: seq<NodeId>)
    requires c.Ok() && CpuOk(c, m, n, cpu, tops) && cpu.Copied? && GpuPast(c, m.log, n)
    requires top.inputC == cpu.inputC && top.inputR == cpu.inputR
    requires !c.treeROnly ==> AllNodes(AllSectors(c.u, c.f, top.inputC), traceC)
    requires AllNodes(AllSectors(c.u, c.f, top.inputR), traceR)
    requires ws == CpuLog(c, cpu.part, top.inputC, top.inputR, traceC, traceR)
    requires RootsOk(c, top.inputR, top.rootsR) && (!c.treeROnly ==> RootsOk(c, top.inputC, top.rootsC))
    ensures CpuOk(c, m.(log := m.log + ws), n, Resting, tops + [top]) && GpuPast(c, m.log + ws, n)
    ensures forall w :: w in ws ==> w.part == cpu.part && Sender(c.u, w.job) == c.u.streams
    ensures OnlyAdds(c.u, m.log, m.log + ws, cpu.part, c.u.streams)
  {
    hide From, AllNodes, AllSectors, CpuWrites, RootsOk, InputsOk, CpuDone, OnlyAdds, GpuPast;
    var q, k := cpu.part, c.u.streams;
    CpuSender(c, q, TreeC, top.inputC, traceC);
    CpuSender(c, q, TreeR, top.inputR, traceR);
    FromAll(c.u, m.log, ws, q, k);
    AddsOnly(c.u, m.log, ws, q, k);
    PastKept(c, m.log, m.log + ws, n, q, k);
    TopsKept(c, m.log, m.log + ws, tops, q, k);
    assert From(c.u, m.log + ws, q, k) == ws by { assert [] + ws == ws; }
    CpuAdded(c, q, m.log + ws, top.inputC, top.inputR, traceC, traceR);
    assert TopOk(c, q, m.log + ws, top);
    NothingLater(c, m.log, m.log + ws, q);
  }

  lemma CpuAdded(c: Config, p: nat, log: seq<Write>, inputC: seq<int>, inputR: seq<int>, traceC: seq<NodeId>,
                 traceR: seq<NodeId>)
    requires c.u.Ok() && c.layers > 0 && (!c.treeROnly ==> AllNodes(AllSectors(c.u, c.f, inputC), traceC))
    requires AllNodes(AllSectors(c.u, c.f, inputR), traceR)
    requires From(c.u, log, p, c.u.streams) == CpuLog(c, p, inputC, inputR, traceC, traceR)
    ensures CpuDone(c, p, log, inputC, inputR)
  {
    assert AllNodes(AllSectors(c.u, c.f, inputC), traceC) || c.treeROnly;
    var ws := CpuWrites(c, p, TreeC, inputC, traceC);
    hide AllNodes, CpuWrites, From, AllSectors;
  }

  lemma NothingLater(c: Config, log: seq<Write>, log': seq<Write>, p: nat)
    requires OnlyAdds(c.u, log, log', p, c.u.streams)
    requires forall q: nat :: q >= p ==> From(c.u, log, q, c.u.streams) == []
    ensures forall q: nat :: q > p ==> From(c.u, log', q, c.u.streams) == []
  {
    hide From;
  }

  lemma CpuSender(c: Config, p: nat, kind: Kind, input: seq<int>, trace: seq<NodeId>)
    requires c.u.Ok() && c.layers > 0
    ensures forall w :: w in CpuWrites(c, p, kind, input, trace) ==> w.part == p && Sender(c.u, w.job) == c.u.streams
  {
    hide Block, RunOf, Pos;
  }

  lemma AddsOnly(u: Setup, log: seq<Write>, ws: seq<Write>, p: nat, k: nat)
    requires forall w :: w in ws ==> w.part == p && Sender(u, w.job) == k
    ensures OnlyAdds(u, log, log + ws, p, k)
  {
    hide From;
    forall q: nat, i: nat | q != p || i != k ensures From(u, log + ws, q, i) == From(u, log, q, i) {
      FromNone(u, log, ws, q, i);
    }
  }

  /** The CPU has its copy of the results and gives the lock back. */
  lemma CopyKept(c: Config, p: nat, m: Machine, views: seq<View>, lost: nat, n: nat, cpu: Cpu, tops: seq<Upper>)
    requires c.u.Ok() && c.layers > 0 && CpuOk(c, m, n, cpu, tops) && cpu.Waiting?
    ensures
      var m' := m.(lock := Free);
      && CpuOk(c, m', n, Copied(cpu.part, m.resultsC, m.resultsR), tops)
      && (MachineOk(c, p, m, views, lost) ==> MachineOk(c, p, m', views, lost))
      && (Stopped(c, p, m, lost) ==> Stopped(c, p, m', lost))
  {
    hide StreamOk, From, Slice, TopOk, InputsOk, StreamStopped;
  }

  /** Writes of the CPU leave the streams' account of a later partition alone. */
  lemma AddedKept(c: Config, p: nat, m: Machine, views: seq<View>, lost: nat, ws: seq<Write>, q: nat)
    requires q < p && forall w :: w in ws ==> w.part == q && Sender(c.u, w.job) == c.u.streams
    requires OnlyAdds(c.u, m.log, m.log + ws, q, c.u.streams)
    ensures
      var m' := m.(log := m.log + ws);
      && (MachineOk(c, p, m, views, lost) ==> MachineOk(c, p, m', views, lost))
      && (Stopped(c, p, m, lost) ==> Stopped(c, p, m', lost))
  {
    hide StreamOk, From, Slice, StreamStopped;
  }

  /** Partition `p` is handed to the CPU. */
  lemma HandedOver(c: Config, p: nat, m: Machine, views: seq<View>, lost: nat, tops: seq<Upper>)
    requires MachineOk(c, p, m, views, lost) && forall r: nat :: r < c.u.streams ==> m.streams[r].state == Done
    requires GpuPast(c, m.log, p) && CpuOk(c, m, p, Resting, tops) && !m.lock.ByStream?
    ensures
      var m' := m.(lock := ByCpu);
      GpuPast(c, m.log, p + 1) && CpuOk(c, m', p + 1, Waiting(p), tops) && Stopped(c, p + 1, m', lost + 2)
  {
    hide StreamOk, From, Slice, TopOk, InputsOk, StreamStopped, StreamDone, PairPeak;
    AllStop(c, p, m, views, lost);
  }
}
