/** The PC2 pipeline: the host's polling loop over all streams, and the CPU's task beside it. */
module Pc2Gpu {
  import opened RingMath
  import opened TreeRows
  import opened Pc2Tree
  import opened Pc2Planner
  import opened Pc2Pair
  import opened Pc2Blocks
  import opened Pc2Files
  import opened Pc2Places
  import opened Pc2Writes
  import opened Pc2Streams
  import opened Pc2Plans
  import opened Pc2Polls
  import opened Pc2Steps
  import opened Pc2Leaves
  import opened Pc2Inner
  import opened Pc2Cpu
  import opened Pc2Logs
  import opened Pc2Result
  import opened Pc2Machine
  import opened Pc2History
  import opened Pc2Progress

  lemma SteppedDrops(c: Config, p: nat, m: Machine, views: seq<View>, lost: nat, r: nat)
    requires MachineOk(c, p, m, views, lost) && r < c.u.streams && m.streams[r].queue != []
    ensures
      var m' := Stepped(c, p, m, r);
      && Drops(c.u, m.streams, views, m'.streams, views, r, true)
      && m'.streams[r].state == m.streams[r].state && |m'.streams[r].queue| == |m.streams[r].queue| - 1
      && m'.streams[r].valid == m.streams[r].valid
  {
    Sizes(c, p, m, views, lost);
    var s, v := m.streams[r], views[r];
    assert StreamOk(c, p, r, s, v, lost);
    LeftNat(c, p, r, s, v, lost);
    hide MachineOk, Stepped, InState, Safe, Left, PairOk, Exec;
    SteppedStreams(c, p, m, r);
    ExecLess(c, p, r, s, v);
  }

  /** A later stage is less work. */
  lemma StageLess(c: Config, p: nat, r: nat, s: Stream, s': Stream, v: View, lost: nat)
    requires StreamOk(c, p, r, s, v, lost) && Rank(s') < Rank(s)
    ensures Left(c.u, s', v) < Left(c.u, s, v)
  {
    LeftNat(c, p, r, s, v, lost);
    hide StreamOk, Rank, Remaining;
  }

  /** A stage done is a stage less. */
  lemma NextStage(c: Config, p: nat, r: nat, s: Stream, s': Stream, v: View, lost: nat)
    requires StreamOk(c, p, r, s, v, lost) && |s'.queue| <= 10
    requires match s.state
             case DataRead => s'.state == DataWait
             case DataWait => s.valid && (s'.state == HashColumn || s'.state == HashColumnLeaves)
             case HashColumn => s'.state == HashColumnLeaves
             case HashColumnLeaves => s'.state == HashWait
             case HashLeaf => s'.state == HashWait
             case HashWait => s'.state == Done || s'.state == Idle
             case _ => false
    ensures Left(c.u, s', v) < Left(c.u, s, v)
  {
    hide StreamOk;
    StageLess(c, p, r, s, s', v, lost);
  }

  lemma DeliveredLess(c: Config, p: nat, r: nat, s: Stream, s': Stream, v: View, lost: nat)
    requires StreamOk(c, p, r, s, v, lost) && Rank(s') <= Rank(s)
    ensures Left(c.u, s', v) <= Left(c.u, s, v)
  {
    LeftNat(c, p, r, s, v, lost);
    hide StreamOk, Rank, Remaining;
  }

  lemma TakesLess(c: Config, p: nat, r: nat, s: Stream, s': Stream, v: View, lost: nat)
    requires StreamOk(c, p, r, s, v, lost) && s.state == Idle && (s'.state == DataRead || s'.state == HashLeaf)
    requires 1 <= s'.workC.idx.layer <= c.u.height + 1
    ensures |v.done| == c.u.height + 3
    ensures Left(c.u, s', ViewAfter(Shape(c.u), v, s'.workC.idx.layer, s'.workC.buf, s'.workR.buf)) < Left(c.u, s, v)
  {
    LeftNat(c, p, r, s, v, lost);
    hide StreamOk, Left, ViewAfter;
    TakingLess(c.u, s, s', v, s'.workC.idx.layer, s'.workC.buf, s'.workR.buf);
  }

  lemma Sizes(c: Config, p: nat, m: Machine, views: seq<View>, lost: nat)
    requires MachineOk(c, p, m, views, lost)
    ensures c.Ok() && |m.streams| == |views| == c.u.streams
    ensures forall r: nat :: r < c.u.streams ==> StreamOk(c, p, r, m.streams[r], views[r], lost)
  {
    hide StreamOk;
  }

  lemma PartOf(c: Config, m: Machine, n: nat, cpu: Cpu, tops: seq<Upper>)
    requires c.u.Ok() && c.layers > 0 && CpuOk(c, m, n, cpu, tops) && cpu.Copied?
    ensures n > 0 && cpu.part == n - 1
  {
    hide From, TopOk, InputsOk;
  }

  lemma ResetTotal(c: Config, m: Machine)
    requires c.u.Ok() && |m.streams| == c.u.streams
    ensures Total(c.u, ResetAll(c, m).streams, seq(c.u.streams, _ => NewView(Shape(c.u)))) == Enough(c.u)
  {
    hide Nodes;
    TotalAtStart(c.u, ResetAll(c, m).streams, seq(c.u.streams, _ => NewView(Shape(c.u))));
  }

  lemma CpuLock(c: Config, m: Machine, n: nat, cpu: Cpu, tops: seq<Upper>)
    requires c.u.Ok() && c.layers > 0 && CpuOk(c, m, n, cpu, tops)
    ensures m.lock == ByCpu <==> cpu.Waiting?
  {
    hide From, TopOk, InputsOk;
  }

  lemma CalmStates(u: Setup, streams: seq<Stream>, views: seq<View>, lock: Lock, streams': seq<Stream>,
                   views': seq<View>, lock': Lock)
    requires Calm(u, streams, views, lock, streams', views', lock')
    ensures forall k: nat :: k < |streams| ==> streams'[k].state == streams[k].state
    ensures lock == ByHost <==> lock' == ByHost
  {
    hide Total;
  }

  lemma CalmSizes(u: Setup, streams: seq<Stream>, views: seq<View>, lock: Lock, streams': seq<Stream>,
                  views': seq<View>, lock': Lock)
    requires Calm(u, streams, views, lock, streams', views', lock')
    ensures |streams'| == |views'| == |streams| == |views| && Total(u, streams', views') <= Total(u, streams, views)
  {
  }

  lemma QueueBound(c: Config, p: nat, r: nat, s: Stream, v: View, lost: nat)
    requires StreamOk(c, p, r, s, v, lost)
    ensures |s.queue| <= 10 && (s.queue == [] ==> s.awake)
  {
    hide PairOk, Safe, RunOps, InState;
  }

  lemma ResetCpu(c: Config, m: Machine, n: nat, cpu: Cpu, tops: seq<Upper>)
    requires c.u.Ok() && c.layers > 0 && CpuOk(c, m, n, cpu, tops)
    ensures CpuOk(c, ResetAll(c, m), n, cpu, tops)
  {
    hide From, TopOk, InputsOk, Reset;
  }

  /** The host takes the lock for the CPU. */
  lemma LockFree(c: Config, p: nat, m: Machine, views: seq<View>, lost: nat, n: nat, cpu: Cpu, tops: seq<Upper>)
    requires MachineOk(c, p, m, views, lost) && CpuOk(c, m, n, cpu, tops) && m.lock == Free
    ensures MachineOk(c, p, m.(lock := ByHost), views, lost) && CpuOk(c, m.(lock := ByHost), n, cpu, tops)
  {
    hide From, TopOk, InputsOk, StreamOk, Slice;
  }

  /** Nothing is made to wait for ever. */
  ghost predicate EagerRun(u: Setup, files: nat, env: nat -> ((nat, nat) -> Turn)) {
    forall p: nat :: p < files ==> EagerEnv(u, env(p))
  }

  /** What a whole run amounts to. */
  ghost predicate HashDone(c: Config, files: nat, log: seq<Write>, tops: seq<Upper>) {
    && c.Ok() && |tops| == files
    && forall p: nat :: p < files ==>
      && PartDone(c, p, log, tops[p].inputC, tops[p].inputR)
      && TopOk(c, p, log, tops[p])
  }

  lemma AllHashed(c: Config, m: Machine, files: nat, lost: nat, cpu: Cpu, tops: seq<Upper>)
    requires Stopped(c, files, m, lost) && GpuPast(c, m.log, files) && CpuOk(c, m, files, cpu, tops) && cpu.Resting?
    ensures HashDone(c, files, m.log, tops)
  {
    hide From, CpuDone, InputsOk, StreamDone, RootsOk, StreamStopped;
    forall p: nat | p < files
      ensures PartDone(c, p, m.log, tops[p].inputC, tops[p].inputR) && TopOk(c, p, m.log, tops[p])
    {
      assert TopOk(c, p, m.log, tops[p]);
    }
  }

  lemma StoppedSize(c: Config, n: nat, m: Machine, lost: nat)
    requires Stopped(c, n, m, lost)
    ensures |m.streams| == c.u.streams
  {
    hide StreamStopped;
  }

  /** A stream before its first reset. */
  function NewStream(c: Config): Stream {
    var none := WorkItem(NodeId(0, 0), 0, false, NULL, []);
    var zeros := seq(c.GroupSize(), _ => 0);
    Stream(Idle, false, true, Pool([], 0), map[], Agenda([], map[]), Agenda([], map[]), none, none, 0, false, [],
           seq(c.layers * c.LayerSize(), _ => 0), [], [], [], [], [], zeros, zeros)
  }

  lemma NewMachine(c: Config, m: Machine)
    requires c.Ok() && m.streams == seq(c.u.streams, _ => NewStream(c)) && m.log == [] && m.lock == Free
    requires m.resultsR == seq(c.u.streams * c.GroupSize(), _ => 0)
    requires m.resultsC == if c.treeROnly then [] else seq(c.u.streams * c.GroupSize(), _ => 0)
    ensures GpuPast(c, m.log, 0) && CpuOk(c, m, 0, Resting, []) && Stopped(c, 0, m, 0)
  {
    hide PlacesOk;
    forall r: nat | r < c.u.streams ensures Slice(c.u, m.resultsR, r) == seq(c.GroupSize(), _ => 0) {
      Slots(c.GroupSize(), r, c.u.streams);
    }
  }

  /** A tree of one batch per stream never copies results. */
  lemma LockHeight(c: Config, p: nat, m: Machine, views: seq<View>, lost: nat)
    requires MachineOk(c, p, m, views, lost)
    ensures c.u.height == 0 ==> !m.lock.ByStream?
  {
    hide StreamOk, From, Slice;
  }

  lemma NothingAdded(u: Setup, log: seq<Write>, p: nat, k: nat)
    ensures OnlyAdds(u, log, log, p, k)
  {
  }

  lemma ConfigOk(c: Config, p: nat, r: nat, s: Stream, v: View, lost: nat)
    requires StreamOk(c, p, r, s, v, lost)
    ensures c.Ok() && QueueOk(r, s) && |LastLayer(c, s.column)| == c.LayerSize()
  {
  }

  /** An idle stream has items to take. */
  lemma IdleTakes(c: Config, p: nat, r: nat, s: Stream, v: View, lost: nat)
    requires StreamOk(c, p, r, s, v, lost) && s.state == Idle
    ensures c.Ok() && s.awake && CanTake(Shape(c.u), s.c) && CanTake(Shape(c.u), s.r) && s.queue == []
  {
    hide PairOk, CanTake, Safe, RunOps;
    EmptyAwake(r, s);
    Quiet(c, p, r, s, v, lost);
    BothCanTake(Shape(c.u), v, s.c, s.r, s.pool, lost);
  }

  /** The node of a leaf whose batch is wanted. */
  lemma ReadNode(c: Config, p: nat, r: nat, s: Stream, v: View, lost: nat)
    requires StreamOk(c, p, r, s, v, lost) && s.state == DataRead
    ensures c.Ok() && s.awake && s.workC.idx.node >= 0 && s.queue == []
  {
    hide PairOk, Safe, RunOps, Flying, Before;
    EmptyAwake(r, s);
    Quiet(c, p, r, s, v, lost);
    FlyingNode(c, p, r, s, v);
  }

  lemma StartIs(c: Config, p: nat, r: nat, n: nat)
    requires c.u.Ok()
    ensures
      var nodesToRead := Pow(c.u.arity, c.u.Levels());
      && 0 <= nodesToRead / c.u.streams
      && n * (c.u.arity * c.u.group) + nodesToRead / c.u.streams * r + p * nodesToRead == StartNode(c, p, r, n)
  {
    StreamNodeCount(c.u);
  }

  lemma ColumnPlace(c: Config, p: nat, r: nat, s: Stream, v: View, lost: nat)
    requires StreamOk(c, p, r, s, v, lost) && s.state == HashColumn && r < c.u.streams
    ensures c.Ok() && s.awake && s.queue == [] && s.workC.idx.node >= 0 && s.workC.idx.layer == 1
    ensures PlacesHave(c.u, c.c, Columns(r, s.workC.idx.node))
  {
    hide PairOk, Safe, RunOps, Flying, Before, Groups, PlacesOk;
    EmptyAwake(r, s);
    Quiet(c, p, r, s, v, lost);
    FlyingNode(c, p, r, s, v);
    ColumnsWanted(c, p, r, s.workC.idx.node);
  }

  lemma LeafPlace(c: Config, p: nat, r: nat, s: Stream, v: View, lost: nat)
    requires StreamOk(c, p, r, s, v, lost) && s.state == HashColumnLeaves && s.awake && r < c.u.streams
    ensures c.Ok() && s.queue == [] && s.workC.idx.node >= 0 && s.workC.idx.layer == 1
    ensures PlacesHave(c.u, c.c, Part(r, 1, s.workC.idx.node)) && c.c.skip == 0
  {
    hide PairOk, Safe, RunOps, Flying, Before, Groups, PlacesOk;
    Quiet(c, p, r, s, v, lost);
    FlyingNode(c, p, r, s, v);
    PartWanted(c, p, TreeC, r, s.workC.idx);
  }

  lemma InnerPlaces(c: Config, p: nat, r: nat, s: Stream, v: View, lost: nat)
    requires StreamOk(c, p, r, s, v, lost) && s.state == HashLeaf && r < c.u.streams
    ensures c.Ok() && s.awake && s.queue == [] && s.workC.idx.node >= 0 && s.workR.idx == s.workC.idx
    ensures c.c.skip == 0 && c.r.skip == c.discards + 1 && c.u.height > 0 && s.workC.idx.layer > 1
    ensures PlacesHave(c.u, c.c, Part(r, s.workC.idx.layer, s.workC.idx.node))
    ensures s.workC.idx.layer > c.discards ==> PlacesHave(c.u, c.r, Part(r, s.workC.idx.layer, s.workC.idx.node))
  {
    hide PairOk, Safe, RunOps, Flying, Before, Groups, PlacesOk;
    EmptyAwake(r, s);
    Quiet(c, p, r, s, v, lost);
    InnerJob(c, p, r, s, v);
    PartWanted(c, p, TreeC, r, s.workC.idx);
    if s.workC.idx.layer > c.discards {
      PartWanted(c, p, TreeR, r, s.workC.idx);
    }
  }

  /** The elements before sector `s`'s node `j`, in the order of the encoding, are encoded. */
  ghost predicate EncodedTo(c: Config, layer: seq<int>, start: nat, s: nat, j: nat, replica: seq<int>)
    requires c.u.sectors > 0 && |layer| == |replica| == c.LayerSize()
  {
    forall k: nat :: k < c.LayerSize() ==> replica[k] == EncodedAt(c, layer, start, s, j, k)
  }

  function EncodedAt(c: Config, layer: seq<int>, start: nat, s: nat, j: nat, k: nat): int
    requires c.u.sectors > 0 && k < |layer|
  {
    var sector, node := Slot(k, c.u.sectors), Div(k, c.u.sectors);
    if sector < s || (sector == s && node < j) then Sealed(c, sector, start + node, layer[k]) else layer[k]
  }

  lemma EncodeOne(c: Config, layer: seq<int>, start: nat, s: nat, j: nat, replica: seq<int>)
    requires |layer| == |replica| == c.LayerSize() && s < c.u.sectors && j < c.u.arity * c.u.group && c.hasData(s)
    requires EncodedTo(c, layer, start, s, j, replica)
    ensures
      var at := s + j * c.u.sectors;
      && 0 <= at < c.LayerSize()
      && EncodedTo(c, layer, start, s, j + 1, replica[at := c.add(replica[at], c.data(s, start + j))])
  {
    hide Slot, Div;
    var at := s + j * c.u.sectors;
    InBlock(c.u.arity * c.u.group, c.u.sectors, j, s);
    assert c.u.arity * c.u.group * c.u.sectors == c.LayerSize();
    ElementPlace(c.u.sectors, j, s, at);
    assert replica[at] == EncodedAt(c, layer, start, s, j, at) == layer[at];
    var replica' := replica[at := c.add(replica[at], c.data(s, start + j))];
    forall k: nat | k < c.LayerSize() ensures replica'[k] == EncodedAt(c, layer, start, s, j + 1, k) {
      assert replica[k] == EncodedAt(c, layer, start, s, j, k);
      SlotIsMod(k, c.u.sectors);
      assert Slot(k, c.u.sectors) == s && Div(k, c.u.sectors) == j ==> k == at;
    }
  }

  lemma EncodeNext(c: Config, layer: seq<int>, start: nat, s: nat, replica: seq<int>)
    requires |layer| == |replica| == c.LayerSize() && s < c.u.sectors && 0 <= c.u.arity * c.u.group
    requires EncodedTo(c, layer, start, s, c.u.arity * c.u.group, replica)
    ensures EncodedTo(c, layer, start, s + 1, 0, replica)
  {
    hide Slot, Div;
    forall k: nat | k < c.LayerSize() ensures replica[k] == EncodedAt(c, layer, start, s + 1, 0, k) {
      assert replica[k] == EncodedAt(c, layer, start, s, c.u.arity * c.u.group, k);
      QuotientBelow(k, c.u.sectors, c.u.arity * c.u.group);
    }
  }

  lemma EncodeSkip(c: Config, layer: seq<int>, start: nat, s: nat, replica: seq<int>)
    requires |layer| == |replica| == c.LayerSize() && s < c.u.sectors && !c.hasData(s)
    requires EncodedTo(c, layer, start, s, 0, replica)
    ensures EncodedTo(c, layer, start, s + 1, 0, replica)
  {
    hide Slot, Div;
    forall k: nat | k < c.LayerSize() ensures replica[k] == EncodedAt(c, layer, start, s + 1, 0, k) {
      assert replica[k] == EncodedAt(c, layer, start, s, 0, k);
    }
  }

  lemma AllEncoded(c: Config, layer: seq<int>, start: nat, replica: seq<int>)
    requires c.u.sectors > 0 && |layer| == |replica| == c.LayerSize()
    requires EncodedTo(c, layer, start, c.u.sectors, 0, replica)
    ensures replica == Replica(c, layer, start)
  {
    hide Slot, Div;
    forall k: nat | k < c.LayerSize() ensures replica[k] == Replica(c, layer, start)[k] {
      assert replica[k] == EncodedAt(c, layer, start, c.u.sectors, 0, k);
    }
  }

  class Pipeline {
    const c: Config
    var streams: seq<Stream>
    var log: seq<Write>
    var resultsC: seq<int>
    var resultsR: seq<int>
    var lock: Lock
    var cpu: Cpu
    var tops: seq<Upper>
    ghost var views: seq<View>
    ghost var lost: nat

    /** Tables, streams and results; nothing is hashed yet. */
    constructor (u: Setup, f: seq<int> -> int, colHash: seq<int> -> int, layers: nat, discards: nat, treeROnly: bool,
                 load: (nat, nat, nat) -> seq<int>, hasData: nat -> bool, data: (nat, nat) -> int,
                 add: (int, int) -> int)
      requires u.Ok() && layers > 0 && discards <= u.height + 1
      requires forall l: nat, x: nat, n: nat :: |load(l, x, n)| == n * (u.sectors * (u.arity * u.group))
      ensures Rests(0) && lost == 0 && cpu == Resting
      ensures c.u == u && c.f == f && c.colHash == colHash && c.layers == layers && c.discards == discards
      ensures c.treeROnly == treeROnly && c.load == load && c.hasData == hasData && c.data == data && c.add == add
    {
      var placesC := MakePlaces(u, Pow(u.arity, u.Levels()), 0);
      var placesR := MakePlaces(u, Pow(u.arity, u.Levels()), discards + 1);
      var anyData := false;
      for s := 0 to u.sectors
        invariant anyData <==> exists k: nat :: k < s && hasData(k)
      {
        anyData := anyData || hasData(s);
      }
      var config := Config(u, f, colHash, layers, discards, treeROnly, placesC, placesR, load, anyData, hasData, data,
                           add);
      assert config.Ok();
      c := config;
      streams := seq(u.streams, _ => NewStream(config));
      log, lock, cpu, tops := [], Free, Resting, [];
      resultsC := if treeROnly then [] else seq(u.streams * config.GroupSize(), _ => 0);
      resultsR := seq(u.streams * config.GroupSize(), _ => 0);
      views, lost := [], 0;
      new;
      NewMachine(c, Now());
    }

    function Now(): Machine
      reads this
    {
      Machine(streams, log, resultsC, resultsR, lock)
    }

    /** The streams are done with `n` partitions, and the CPU with all of them or all but the last. */
    ghost predicate Past(n: nat)
      reads this
    {
      c.Ok() && GpuPast(c, log, n) && CpuOk(c, Now(), n, cpu, tops)
    }

    /** Between two partitions. */
    ghost predicate Rests(n: nat)
      reads this
    {
      Past(n) && Stopped(c, n, Now(), lost) && lock != ByHost
    }

    /** Partition `p` is under way. */
    ghost predicate Running(p: nat)
      reads this
    {
      Past(p) && MachineOk(c, p, Now(), views, lost)
    }

    /** A stream's view. */
    ghost function ViewOf(p: nat, r: nat): (v: View)
      requires Running(p) && r < c.u.streams && |streams| == c.u.streams
      reads this
      ensures StreamOk(c, p, r, streams[r], v, lost) && |views| == c.u.streams && v == views[r]
    {
      hide StreamOk, GpuPast, CpuOk;
      views[r]
    }

    /** A poll leaves a stream in another state, and may take the lock. */
    method Become(ghost p: nat, r: nat, s: Stream, ghost v: View, takes: bool, ghost less: bool)
      requires Running(p) && r < c.u.streams && |streams| == |views| == c.u.streams && StreamOk(c, p, r, s, v, lost)
      requires s.sent == streams[r].sent && s.stashC == streams[r].stashC && s.stashR == streams[r].stashR
      requires takes ==> lock == Free && Unlock in s.queue && c.u.height > 0
      requires !takes ==> (Unlock in s.queue <==> Unlock in streams[r].queue)
      requires Left(c.u, s, v) <= Left(c.u, streams[r], views[r]) - (if less then 1 else 0)
      modifies this`streams, this`views, this`lock
      ensures Running(p) && lock == (if takes then ByStream(r) else old(lock))
      ensures Drops(c.u, old(streams), old(views), streams, views, r, less) && streams[r] == s
    {
      hide MachineOk, GpuPast, CpuOk, StreamOk, OnlyAdds, From, Left;
      ghost var m := Now();
      Sizes(c, p, m, views, lost);
      streams := streams[r := s];
      if takes { lock := ByStream(r); }
      Polled(c, p, m, Now(), views, lost, r, s, v, takes);
      NothingAdded(c.u, log, p, r);
      CpuKept(c, m, Now(), p, cpu, tops, p, r);
      views := views[r := v];
    }

    /** A poll that has to wait. */
    lemma Still(p: nat, r: nat)
      requires Running(p) && r < c.u.streams && |streams| == c.u.streams
      ensures |views| == c.u.streams && Drops(c.u, streams, views, streams, views, r, false)
    {
      hide GpuPast, CpuOk, StreamOk, Left;
      Sizes(c, p, Now(), views, lost);
      NoDrop(c.u, streams, views, r);
    }

    /** The first node of a batch. */
    method StartOf(p: nat, r: nat, n: nat) returns (start: nat)
      requires c.Ok()
      ensures start == StartNode(c, p, r, n)
    {
      hide StartNode, Pow, PlacesOk;
      StartIs(c, p, r, n);
      var nodesToRead := Pow(c.u.arity, c.u.Levels());
      var nodesPerStream := nodesToRead / c.u.streams;
      start := n * (c.u.arity * c.u.group) + nodesPerStream * r + p * nodesToRead;
    }

    /** The file offset of a batch of columns. */
    method ColumnPos(r: nat, id: NodeId) returns (pos: nat)
      requires id.layer == 1 && id.node >= 0 && PlacesHave(c.u, c.c, Columns(r, id.node))
      ensures pos == Pos(c.u, c.c, Columns(r, id.node))
    {
      var layerOffset := c.c.table[id.layer - 1];
      pos := c.c.tree.Address(id.layer - 1, id.node * (c.u.arity * c.u.group) + layerOffset * r);
    }

    /** The file offset of a group of a row, in a file that skips its first rows. */
    method PartPos(places: Places, r: nat, id: NodeId) returns (pos: nat)
      requires id.node >= 0 && PlacesHave(c.u, places, Part(r, id.layer, id.node))
      ensures pos == Pos(c.u, places, Part(r, id.layer, id.node))
    {
      var layer := id.layer - places.skip;
      var layerOffset := places.table[layer];
      SlotIsMod(id.node * (c.u.arity * c.u.group), c.u.arity);
      pos := places.tree.Address(layer, id.node * (c.u.arity * c.u.group) / c.u.arity + layerOffset * r);
    }

    /** Take the next items of both schedulers, tree C's first. */
    method PollIdle(ghost p: nat, r: nat)
      requires Running(p) && r < c.u.streams && |streams| == c.u.streams && streams[r].state == Idle
      modifies this`streams, this`views, this`lock
      ensures Running(p) && |old(views)| == |old(streams)| && lock == old(lock)
      ensures Drops(c.u, old(streams), old(views), streams, views, r, true)
    {
      var s := streams[r];
      ghost var v := ViewOf(p, r);
      IdleTakes(c, p, r, s, v, lost);
      hide Running, Drops, Left, StreamOk, Rank, CanTake, Taken, Item, PoolAfter, GotBuf, ViewAfter;
      var t := Shape(c.u);
      var wc := Item(t, s.c, GotBuf(s.pool.free, s.pool.count));
      var pool := PoolAfter(s.pool, wc);
      var wr := Item(t, s.r, GotBuf(pool.free, pool.count));
      var c', r' := Taken(t, s.c, wc.buf), Taken(t, s.r, wr.buf);
      var s' := s.(workC := wc, workR := wr, c := c', r := r', pool := PoolAfter(pool, wr), last := c'.stack == [],
                   state := if wc.isLeaf then DataRead else HashLeaf);
      Taking(c, p, r, s, s', v, lost);
      TakesLess(c, p, r, s, s', v, lost);
      Become(p, r, s', ViewAfter(t, v, wc.idx.layer, wc.buf, wr.buf), false, true);
    }

    /** Ask the reader for the batch of a leaf. */
    method PollRead(p: nat, r: nat)
      requires Running(p) && r < c.u.streams && |streams| == c.u.streams && streams[r].state == DataRead
      modifies this`streams, this`views, this`lock
      ensures Running(p) && |old(views)| == |old(streams)| && lock == old(lock)
      ensures Drops(c.u, old(streams), old(views), streams, views, r, true)
    {
      var s := streams[r];
      ghost var v := ViewOf(p, r);
      ReadNode(c, p, r, s, v, lost);
      hide Running, Drops, Left, StreamOk, Rank, StartNode, PlacesOk;
      var start := StartOf(p, r, s.workC.idx.node);
      var s' := s.(start := start, valid := false, state := DataWait);
      Reading(c, p, r, s, s', v, lost);
      NextStage(c, p, r, s, s', v, lost);
      Become(p, r, s', v, false, true);
    }

    /** Encode the replica: add the data to the last layer's labels, sector by sector. */
    method Encode(layer: seq<int>, start: nat) returns (replica: seq<int>)
      requires c.u.sectors > 0 && |layer| == c.LayerSize()
      ensures replica == Replica(c, layer, start)
    {
      replica := layer;
      for s := 0 to c.u.sectors
        invariant |replica| == c.LayerSize()
        invariant EncodedTo(c, layer, start, s, 0, replica)
      {
        hide EncodedTo;
        if c.hasData(s) {
          for j := 0 to c.u.arity * c.u.group
            invariant |replica| == c.LayerSize() && EncodedTo(c, layer, start, s, j, replica)
          {
            EncodeOne(c, layer, start, s, j, replica);
            var at := s + j * c.u.sectors;
            replica := replica[at := c.add(replica[at], c.data(s, start + j))];
          }
          EncodeNext(c, layer, start, s, replica);
        } else {
          EncodeSkip(c, layer, start, s, replica);
        }
      }
      AllEncoded(c, layer, start, replica);
    }

    /** Once the batch is there, encode its last layer. */
    method PollWait(ghost p: nat, r: nat)
      requires Running(p) && r < c.u.streams && |streams| == c.u.streams && streams[r].state == DataWait
      requires streams[r].valid
      modifies this`streams, this`views, this`lock
      ensures Running(p) && |old(views)| == |old(streams)| && lock == old(lock)
      ensures Drops(c.u, old(streams), old(views), streams, views, r, true)
    {
      var s := streams[r];
      ghost var v := ViewOf(p, r);
      ConfigOk(c, p, r, s, v, lost);
      hide Running, Drops, Left, StreamOk, Rank, Replica, LastLayer;
      var replica := Encode(LastLayer(c, s.column), s.start);
      var s' := s.(replica := replica, state := if c.treeROnly then HashColumnLeaves else HashColumn);
      Encoded(c, p, r, s, s', v, lost);
      NextStage(c, p, r, s, s', v, lost);
      Become(p, r, s', v, false, true);
    }

    /** Ask the GPU for the column hashes. */
    method PollColumn(ghost p: nat, r: nat)
      requires Running(p) && r < c.u.streams && |streams| == c.u.streams && streams[r].state == HashColumn
      modifies this`streams, this`views, this`lock
      ensures Running(p) && |old(views)| == |old(streams)| && lock == old(lock)
      ensures Drops(c.u, old(streams), old(views), streams, views, r, true)
    {
      var s := streams[r];
      ghost var v := ViewOf(p, r);
      ColumnPlace(c, p, r, s, v, lost);
      hide Running, Drops, Left, StreamOk, Rank, PlacesHave, PlacesOk, Pos, ColumnPlan, Guarded;
      var id := s.workC.idx;
      var job := Columns(r, id.node);
      var pos := ColumnPos(r, id);
      var s' := s.(state := HashColumnLeaves, awake := false, queue := ColumnPlan(s.workC, job, pos));
      ColumnStage(c, p, r, s, s', v, lost, job);
      ColumnShape(r, s.workC, job, pos);
      NextStage(c, p, r, s, s', v, lost);
      Become(p, r, s', v, false, true);
    }

    /** Ask the GPU for a leaf of both trees. */
    method PollLeaves(ghost p: nat, r: nat)
      requires Running(p) && r < c.u.streams && |streams| == c.u.streams && streams[r].state == HashColumnLeaves
      requires streams[r].awake
      modifies this`streams, this`views, this`lock
      ensures Running(p) && |old(views)| == |old(streams)| && lock == old(lock)
      ensures Drops(c.u, old(streams), old(views), streams, views, r, true)
    {
      var s := streams[r];
      ghost var v := ViewOf(p, r);
      LeafPlace(c, p, r, s, v, lost);
      hide Running, Drops, Left, StreamOk, Rank, PlacesHave, PlacesOk, Pos, LeafPlan, Guarded;
      var id := s.workC.idx;
      var job := Part(r, id.layer, id.node);
      var pos := PartPos(c.c, r, id);
      var s' := s.(state := HashWait, awake := false, queue := LeafPlan(c, s.workC, s.workR, job, pos));
      LeafStage(c, p, r, s, s', v, lost, job);
      LeafShape(c, r, s.workC, s.workR, job, pos);
      NextStage(c, p, r, s, s', v, lost);
      Become(p, r, s', v, false, true);
    }

    /** Ask the GPU for an inner node of both trees; for the root, under the lock on the results. */
    method PollInner(ghost p: nat, r: nat)
      requires Running(p) && r < c.u.streams && |streams| == c.u.streams && streams[r].state == HashLeaf
      requires streams[r].last ==> lock == Free
      modifies this`streams, this`views, this`lock
      ensures Running(p) && |old(views)| == |old(streams)|
      ensures lock == old(lock) || (old(lock) == Free && lock == ByStream(r))
      ensures Drops(c.u, old(streams), old(views), streams, views, r, true)
    {
      var s := streams[r];
      ghost var v := ViewOf(p, r);
      InnerPlaces(c, p, r, s, v, lost);
      hide Running, Drops, Left, StreamOk, Rank, PlacesHave, PlacesOk, Pos, InnerPlan, Guarded;
      var id := s.workC.idx;
      var job := Part(r, id.layer, id.node);
      var posC, posR := 0, 0;
      if !c.treeROnly {
        posC := PartPos(c.c, r, id);
      }
      if id.layer > c.discards {
        posR := PartPos(c.r, r, id);
      }
      var s' := s.(state := HashWait, awake := false,
                   queue := InnerPlan(c, s.workC, s.workR, s.last, job, posC, posR));
      InnerStage(c, p, r, s, s', v, lost, job, posC, posR);
      InnerShape(c, r, s.workC, s.workR, s.last, job, posC, posR);
      NextStage(c, p, r, s, s', v, lost);
      Become(p, r, s', v, s.last, true);
    }

    /** Once the callback has run, go on or be done. */
    method PollHashed(ghost p: nat, r: nat)
      requires Running(p) && r < c.u.streams && |streams| == c.u.streams && streams[r].state == HashWait
      requires streams[r].awake
      modifies this`streams, this`views, this`lock
      ensures Running(p) && |old(views)| == |old(streams)| && lock == old(lock)
      ensures Drops(c.u, old(streams), old(views), streams, views, r, true)
    {
      var s := streams[r];
      ghost var v := ViewOf(p, r);
      hide Running, Drops, Left, StreamOk, Rank;
      Waited(c, p, r, s, v, lost);
      var s' := s.(state := if s.last then Done else Idle);
      NextStage(c, p, r, s, s', v, lost);
      Become(p, r, s', v, false, true);
    }

    /** The host finds a stream in whatever state it is in. */
    method Poll(p: nat, r: nat, room: bool)
      requires Running(p) && r < c.u.streams && |streams| == c.u.streams
      modifies this`streams, this`views, this`lock
      ensures Running(p) && |old(views)| == |old(streams)|
      ensures Drops(c.u, old(streams), old(views), streams, views, r, CanGo(old(streams)[r], room, old(lock)))
      ensures lock == old(lock) || (old(lock) == Free && lock == ByStream(r))
      ensures old(streams)[r].state == Done ==> streams[r].state == Done
    {
      hide Running, Left;
      var s := streams[r];
      match s.state
      case Done => Still(p, r);
      case Idle => PollIdle(p, r);
      case DataRead => PollRead(p, r);
      case DataWait => if s.valid && room { PollWait(p, r); } else { Still(p, r); }
      case HashColumn => if room { PollColumn(p, r); } else { Still(p, r); }
      case HashColumnLeaves => if s.awake && (c.treeROnly || room) { PollLeaves(p, r); } else { Still(p, r); }
      case HashLeaf => if room && (!s.last || lock == Free) { PollInner(p, r); } else { Still(p, r); }
      case HashWait => if s.awake { PollHashed(p, r); } else { Still(p, r); }
    }

    /** What the next operation of a stream does, there and to what the streams share. */
    method Perform(p: nat, r: nat)
      requires c.u.Ok() && c.layers > 0 && r < |streams| && streams[r].queue != []
      modifies this`streams, this`log, this`resultsC, this`resultsR, this`lock
      ensures Now() == Stepped(c, p, old(Now()), r)
    {
      hide Exec, Mem, Prefix, Spliced;
      var s := streams[r];
      streams := streams[r := Exec(c, p, s)];
      match s.queue[0]
      case SendC(job, pos) => log := log + [Write(p, TreeC, job, pos, s.diskC)];
      case SendR(job, pos) => log := log + [Write(p, TreeR, job, pos, s.diskR)];
      case StashC => resultsC := Spliced(c.u, resultsC, r, Prefix(s.diskC, c.GroupSize()));
      case StashR(out) => resultsR := Spliced(c.u, resultsR, r, Prefix(Mem(s.contents, out), c.GroupSize()));
      case Unlock => lock := Free;
      case _ =>
    }

    /** The GPU runs the next operation of a stream. */
    method RunGpu(p: nat, r: nat)
      requires Running(p) && r < c.u.streams && |streams| == c.u.streams && streams[r].queue != []
      modifies this`streams, this`log, this`resultsC, this`resultsR, this`lock
      ensures Running(p) && Now() == Stepped(c, p, old(Now()), r)
      ensures c.u.height == 0 ==> resultsC == old(resultsC) && resultsR == old(resultsR)
      ensures |old(views)| == |old(streams)| == |streams| && Drops(c.u, old(streams), views, streams, views, r, true)
      ensures streams[r].state == old(streams)[r].state && |streams[r].queue| == |old(streams)[r].queue| - 1
      ensures streams[r].valid == old(streams)[r].valid
      ensures lock == old(lock) || lock == Free
      ensures old(lock) != ByStream(r) ==> lock == old(lock)
    {
      hide MachineOk, GpuPast, CpuOk, StreamOk, OnlyAdds, Stepped, From, Reads, Drops;
      ghost var m := Now();
      Sizes(c, p, m, views, lost);
      SteppedOk(c, p, m, views, lost, r);
      SteppedLog(c, p, m, views, lost, r);
      SteppedCpu(c, p, m, views, lost, r, p, cpu, tops);
      PastKept(c, m.log, Stepped(c, p, m, r).log, p, p, r);
      LockHeight(c, p, m, views, lost);
      SteppedDrops(c, p, m, views, lost, r);
      SteppedLock(c, p, m, r);
      DropsSizes(c.u, streams, views, Stepped(c, p, m, r).streams, views, r, true);
      Perform(p, r);
    }

    /** The reader has delivered the batch that a stream waits for. */
    method Deliver(p: nat, r: nat)
      requires Running(p) && r < c.u.streams && |streams| == c.u.streams && streams[r].state == DataWait
      modifies this`streams, this`views, this`lock
      ensures Running(p) && lock == old(lock) && |old(views)| == |old(streams)| == |streams|
      ensures Drops(c.u, old(streams), old(views), streams, views, r, false)
      ensures streams[r].state == DataWait && streams[r].valid && streams[r].queue == old(streams)[r].queue
    {
      var s := streams[r];
      ghost var v := ViewOf(p, r);
      ConfigOk(c, p, r, s, v, lost);
      hide Running, Drops, Left, StreamOk, Rank, Batch;
      Delivered(c, p, r, s, v, lost);
      var s' := s.(column := Batch(c, s.start), valid := true);
      DeliveredLess(c, p, r, s, s', v, lost);
      ghost var streams0, views0 := streams, views;
      Become(p, r, s', v, false, false);
      DropsSizes(c.u, streams0, views0, streams, views, r, false);
    }

    /** The CPU's task copies the results, so that the streams may go on to overwrite them. */
    method CopyResults(ghost n: nat)
      requires Past(n) && cpu.Waiting?
      modifies this`cpu, this`lock
      ensures Past(n) && cpu.Copied? && lock == Free
      ensures old(Running(n)) ==> Running(n)
      ensures old(Rests(n)) ==> Rests(n)
    {
      hide GpuPast, MachineOk, Stopped, CpuOk;
      CopyKept(c, n, Now(), views, lost, n, cpu, tops);
      cpu := Copied(cpu.part, resultsC, resultsR);
      lock := Free;
    }

    /** Both trees' upper levels, or tree R's alone. */
    method HashBoth(p: nat, inputC: seq<int>, inputR: seq<int>)
      returns (upper: Upper, writes: seq<Write>, ghost traceC: seq<NodeId>, ghost traceR: seq<NodeId>)
      requires c.Ok()
      ensures upper.inputC == inputC && upper.inputR == inputR
      ensures !c.treeROnly ==> AllNodes(AllSectors(c.u, c.f, inputC), traceC)
      ensures AllNodes(AllSectors(c.u, c.f, inputR), traceR) && writes == CpuLog(c, p, inputC, inputR, traceC, traceR)
      ensures RootsOk(c, inputR, upper.rootsR) && (!c.treeROnly ==> RootsOk(c, inputC, upper.rootsC))
    {
      hide PlacesOk, CpuWrites, RootsOk, AllNodes, AllSectors;
      var rootsC: seq<int>, writesC: seq<Write> := [], [];
      traceC := [];
      if !c.treeROnly {
        rootsC, writesC, traceC := HashCpu(c, p, TreeC, inputC);
      }
      var rootsR, writesR;
      rootsR, writesR, traceR := HashCpu(c, p, TreeR, inputR);
      upper, writes := Upper(inputC, inputR, rootsC, rootsR), writesC + writesR;
    }

    /** The CPU's task hashes the rest of its partition's trees, and writes it. */
    method HashTops(ghost n: nat)
      requires Past(n) && cpu.Copied?
      modifies this`cpu, this`tops, this`log
      ensures Past(n) && cpu.Resting? && lock == old(lock)
      ensures old(Running(n)) ==> Running(n)
      ensures old(Rests(n)) ==> Rests(n)
    {
      PartOf(c, Now(), n, cpu, tops);
      hide GpuPast, MachineOk, Stopped, CpuOk, CpuLog, RootsOk, OnlyAdds, AllNodes;
      var upper, writes, traceC, traceR := HashBoth(cpu.part, cpu.inputC, cpu.inputR);
      CpuAdds(c, Now(), n, cpu, tops, writes, upper, traceC, traceR);
      AddedKept(c, n, Now(), views, lost, writes, cpu.part);
      log := log + writes;
      tops := tops + [upper];
      cpu := Resting;
    }

    /** One of the things that go on while the host polls, if it can happen. */
    method Happen(p: nat, e: Event)
      requires Running(p) && |streams| == c.u.streams
      modifies this
      ensures Running(p) && |streams| == c.u.streams && lost == old(lost)
      ensures c.u.height == 0 ==> resultsC == old(resultsC) && resultsR == old(resultsR)
      ensures |old(views)| == c.u.streams
      ensures Passes(c.u, old(streams), old(views), old(lock), streams, views, lock, e)
    {
      hide Running, Past, Stepped, Left, Drops;
      ViewsThere(p);
      Copier(p);
      match e
      case Gpu(r) =>
        if r < c.u.streams && streams[r].queue != [] { RunGpu(p, r); }
      case Reader(r) =>
        if r < c.u.streams && streams[r].state == DataWait { Deliver(p, r); }
      case CpuCopies =>
        if cpu.Waiting? { CopyResults(p); }
      case CpuHashes =>
        if cpu.Copied? { HashTops(p); }
    }

    /** Some of these things, one after the other. `r` is a stream of interest. */
    method HappenAll(p: nat, events: seq<Event>, ghost r: nat)
      requires Running(p) && |streams| == c.u.streams && r < c.u.streams
      modifies this
      ensures Running(p) && |streams| == c.u.streams && lost == old(lost)
      ensures c.u.height == 0 ==> resultsC == old(resultsC) && resultsR == old(resultsR)
      ensures |old(views)| == |views| == c.u.streams
      ensures Calm(c.u, old(streams), old(views), old(lock), streams, views, lock)
      ensures Eager(events, r) ==> Served(c.u, old(streams), old(views), old(lock), streams, views, lock, r)
    {
      hide Running, Passes, Calm, Serving, Served;
      ghost var streams0, views0, lock0 := streams, views, lock;
      Bounded(p, r);
      CalmStart(c.u, streams, views, lock);
      ServingStarts(c.u, streams, views, lock, r);
      for i := 0 to |events|
        invariant Running(p) && |streams| == |views| == c.u.streams && lost == old(lost)
        invariant c.u.height == 0 ==> resultsC == old(resultsC) && resultsR == old(resultsR)
        invariant Calm(c.u, streams0, views0, lock0, streams, views, lock)
        invariant Eager(events, r) ==> Serving(c.u, streams0, views0, lock0, streams, views, lock, r, i)
      {
        ghost var streams1, views1, lock1 := streams, views, lock;
        Happen(p, events[i]);
        PassesOn(c.u, streams1, views1, lock1, streams, views, lock, events[i]);
        CalmOn(c.u, streams0, views0, lock0, streams1, views1, lock1, streams, views, lock);
        CalmSizes(c.u, streams0, views0, lock0, streams, views, lock);
        if Eager(events, r) {
          ServesOn(c.u, streams0, views0, lock0, streams1, views1, lock1, streams, views, lock, r, i, events[i]);
        }
      }
      Bounded(p, r);
      if Eager(events, r) {
        ServesAll(c.u, streams0, views0, lock0, streams, views, lock, r);
      }
    }

    lemma Bounded(p: nat, r: nat)
      requires Running(p) && |streams| == c.u.streams && r < c.u.streams
      ensures |views| == c.u.streams && |streams[r].queue| <= 10 && (streams[r].queue == [] ==> streams[r].awake)
    {
      ghost var v := ViewOf(p, r);
      hide Running, StreamOk;
      QueueBound(c, p, r, streams[r], v, lost);
    }

    ghost predicate AllDone()
      reads this
    {
      |streams| == c.u.streams && forall r: nat :: r < c.u.streams ==> streams[r].state == Done
    }

    /** One partition: poll all streams in turn until all are done, whatever happens in between. */
    method HashGpu(p: nat, rounds: nat, env: (nat, nat) -> Turn) returns (allDone: bool)
      requires Rests(p)
      modifies this
      ensures Running(p) && lost == old(lost) && lock != ByHost && (allDone ==> AllDone() && Ended(p))
      ensures c.u.height == 0 ==> resultsC == old(resultsC) && resultsR == old(resultsR)
      ensures EagerEnv(c.u, env) && rounds > Enough(c.u) ==> allDone
    {
      hide Running, Rests, Ended, Total, Enough;
      ResetStreams(p);
      allDone := false;
      var round := 0;
      ghost var soon := EagerEnv(c.u, env);
      while !allDone && round < rounds
        invariant Running(p) && |streams| == |views| == c.u.streams && lost == old(lost) && (allDone ==> AllDone())
        invariant c.u.height == 0 ==> resultsC == old(resultsC) && resultsR == old(resultsR)
        invariant lock != ByHost && c.u.Ok()
        invariant soon ==> allDone || Total(c.u, streams, views) + round <= Enough(c.u)
      {
        ghost var before := Total(c.u, streams, views);
        allDone := PollAll(p, round, env);
        SomeLeft(p);
        round := round + 1;
      }
      SomeLeft(p);
      if allDone { HasEnded(p); }
    }

    /** The streams' roots are among the results, all their writes in the log, and each has needed exactly the
      * buffers that two schedulers need, besides those that earlier partitions have lost.
      */
    ghost predicate Ended(p: nat)
      requires c.u.Ok() && c.layers > 0
      reads this
    {
      && |streams| == c.u.streams && (c.u.height > 0 ==> InputsOk(c, p, resultsC, resultsR))
      && forall r: nat :: r < c.u.streams ==>
        StreamDone(c, p, r, log) && streams[r].pool.count == PairPeak(Shape(c.u)) + lost
    }

    lemma HasEnded(p: nat)
      requires Running(p) && AllDone()
      ensures Ended(p)
    {
      hide GpuPast, CpuOk, InputsOk, StreamDone, PairPeak, Stopped, StreamOk;
      AllStop(c, p, Now(), views, lost);
    }

    lemma SomeLeft(p: nat)
      requires Running(p) && |streams| == |views|
      ensures Total(c.u, streams, views) >= 0
    {
      hide GpuPast, CpuOk, StreamOk, Left;
      Sizes(c, p, Now(), views, lost);
      forall r: nat | r < |streams| ensures Left(c.u, streams[r], views[r]) >= 0 {
        LeftNat(c, p, r, streams[r], views[r], lost);
      }
      TotalNat(c.u, streams, views);
    }

    /** A stream that holds the lock is about to give it back. */
    lemma LockHolder(p: nat)
      requires Running(p) && |streams| == c.u.streams
      ensures lock.ByStream? ==>
        lock.stream < c.u.streams && streams[lock.stream].queue != [] && streams[lock.stream].state == HashWait
    {
      hide GpuPast, CpuOk, InState, Safe, RunOps, PairOk, From, Slice, WakesLast, Guarded;
      if lock.ByStream? {
        assert StreamOk(c, p, lock.stream, streams[lock.stream], views[lock.stream], lost);
        assert Unlock in streams[lock.stream].queue;
      }
    }

    /** One round of the polling loop. If nothing is made to wait for long, a round gets some work done,
      * until all is done: whoever holds the lock is about to give it back.
      */
    method PollAll(p: nat, round: nat, env: (nat, nat) -> Turn) returns (allDone: bool)
      requires Running(p) && |streams| == |views| == c.u.streams && lock != ByHost
      modifies this
      ensures Running(p) && |streams| == |views| == c.u.streams && lost == old(lost) && (allDone ==> AllDone())
      ensures c.u.height == 0 ==> resultsC == old(resultsC) && resultsR == old(resultsR)
      ensures lock != ByHost
      ensures EagerEnv(c.u, env) ==> allDone || Total(c.u, streams, views) < Total(c.u, old(streams), old(views))
    {
      hide Running, Total, Left, Drops, Served, Calm;
      allDone := true;
      ghost var soon := EagerEnv(c.u, env);
      ghost var streams0, views0 := streams, views;
      for r := 0 to c.u.streams
        invariant Running(p) && |streams| == |views| == c.u.streams && lost == old(lost) && lock != ByHost
        invariant allDone ==> forall k: nat :: k < r ==> streams[k].state == Done
        invariant c.u.height == 0 ==> resultsC == old(resultsC) && resultsR == old(resultsR)
        invariant soon ==> Total(c.u, streams, views) <= Total(c.u, streams0, views0)
        invariant soon && !allDone ==> Total(c.u, streams, views) < Total(c.u, streams0, views0)
                                       || (lock.ByStream? && r <= lock.stream < c.u.streams)
      {
        var turn := env(round, r);
        LockHolder(p);
        ghost var streams1, views1, lock1 := streams, views, lock;
        HappenAll(p, turn.events, r);
        LockHolder(p);
        CalmStates(c.u, streams1, views1, lock1, streams, views, lock);
        ghost var streams2, views2, lock2 := streams, views, lock;
        if streams[r].state != Done {
          allDone := false;
        }
        Poll(p, r, turn.room);
        DropsSizes(c.u, streams2, views2, streams, views, r, CanGo(streams2[r], turn.room, lock2));
        if soon {
          TurnOver(c.u, streams1, views1, lock1, streams2, views2, lock2, streams, views, lock, r);
        }
        PolledDone(c.u, streams2, views2, streams, views, r, CanGo(streams2[r], turn.room, lock2));
      }
      LockHolder(p);
    }

    method ResetStreams(p: nat)
      requires Rests(p)
      modifies this`streams, this`views
      ensures Running(p) && |streams| == |views| == c.u.streams && lock == old(lock) && lock != ByHost && c.u.Ok()
      ensures Total(c.u, streams, views) == Enough(c.u)
    {
      hide GpuPast, MachineOk, Leaves, CpuOk, Stopped, Reset, NewView, Total, Enough;
      StoppedSize(c, p, Now(), lost);
      Restarted(c, p, Now(), lost);
      ghost var m := Now();
      for r := 0 to |streams|
        invariant |streams| == |m.streams|
        invariant forall k: nat :: k < |streams| ==>
          streams[k] == if k < r then Reset(c, m.streams[k]) else m.streams[k]
      {
        streams := streams[r := Reset(c, streams[r])];
      }
      views := seq(c.u.streams, _ => NewView(Shape(c.u)));
      assert Now() == ResetAll(c, m);
      ResetCpu(c, m, p, cpu, tops);
      ResetTotal(c, m);
    }

    /** Hand the results to the CPU, once it has copied those of the partition before and is done with them. */
    method HandOver(p: nat, before: seq<Event>, after: seq<Event>)
      requires Running(p) && AllDone() && c.u.streams > 0 && lock != ByHost
      modifies this
      ensures Rests(p + 1) && lost == old(lost) + 2
    {
      hide Running, Past, Calm;
      ghost var streams0, views0, lock0 := streams, views, lock;
      HappenAll(p, before, 0);
      CalmStates(c.u, streams0, views0, lock0, streams, views, lock);
      LockHolder(p);
      Copier(p);
      if cpu.Waiting? { CopyResults(p); }
      assert lock == Free;
      TakeLock(p);
      ghost var streams1, views1, lock1 := streams, views, lock;
      HappenAll(p, after, 0);
      CalmStates(c.u, streams1, views1, lock1, streams, views, lock);
      Copier(p);
      if cpu.Copied? { HashTops(p); }
      Spawn(p);
    }

    lemma ViewsThere(p: nat)
      requires Running(p)
      ensures |views| == c.u.streams
    {
      hide GpuPast, CpuOk, StreamOk;
      Sizes(c, p, Now(), views, lost);
    }

    lemma Copier(p: nat)
      requires Running(p)
      ensures Past(p) && (lock == ByCpu <==> cpu.Waiting?)
    {
      CpuLock(c, Now(), p, cpu, tops);
    }

    method TakeLock(p: nat)
      requires Running(p) && |streams| == c.u.streams && lock == Free
      modifies this`lock
      ensures Running(p) && |streams| == c.u.streams && lock == ByHost
    {
      hide GpuPast, StreamsOk, LogMatches;
      Sizes(c, p, Now(), views, lost);
      LockFree(c, p, Now(), views, lost, p, cpu, tops);
      lock := ByHost;
    }

    method Spawn(p: nat)
      requires Running(p) && AllDone() && lock == ByHost && cpu.Resting?
      modifies this`lock, this`cpu, this`lost
      ensures Rests(p + 1) && lost == old(lost) + 2
    {
      hide GpuPast, MachineOk, CpuOk, Stopped;
      HandedOver(c, p, Now(), views, lost, tops);
      cpu := Waiting(p);
      lock := ByCpu;
      lost := lost + 2;
    }

    /** All partitions: the streams work on the next one while the CPU finishes the last. */
    method Hash(files: nat, rounds: nat, env: nat -> ((nat, nat) -> Turn), waits: nat -> (seq<Event>, seq<Event>))
      returns (done: bool)
      requires Rests(0)
      modifies this
      ensures done ==> HashDone(c, files, log, tops)
      ensures done ==> |streams| == c.u.streams && lost == old(lost) + 2 * files
      ensures c.u.Ok() && rounds > Enough(c.u) && EagerRun(c.u, files, env) ==> done
    {
      assert c.u.streams > 0;
      hide Rests, Running, Enough, EagerEnv, HashDone;
      for p := 0 to files
        invariant Rests(p) && lost == old(lost) + 2 * p
      {
        done := HashGpu(p, rounds, env(p));
        if !done {
          return;
        }
        HandOver(p, waits(p).0, waits(p).1);
      }
      done := Join(files);
    }

    /** Wait for the CPU's last task. */
    method Join(files: nat) returns (done: bool)
      requires Rests(files)
      modifies this`cpu, this`tops, this`log, this`lock
      ensures done && HashDone(c, files, log, tops) && |streams| == c.u.streams
    {
      assert |streams| == c.u.streams;
      hide Past, Stopped;
      if cpu.Waiting? { CopyResults(files); }
      if cpu.Copied? { HashTops(files); }
      done := true;
      AllHashed(c, Now(), files, lost, cpu, tops);
    }
  }

  /** Main result: after a run over all partitions, in whatever order streams, reader, GPU, CPU and disk went
    * about their work, each sector's files are those the CPU builder stores, and each root is the top row.
    */
  lemma FilesOfRun(c: Config, files: nat, log: seq<Write>, tops: seq<Upper>, labels: (nat, nat, nat) -> int, p: nat,
                   kind: Kind, s: nat, file: seq<int>, order: seq<Write>)
    requires HashDone(c, files, log, tops) && c.u.height > 0 && ReaderOk(c, labels) && p < files && s < c.u.sectors
    requires if kind == TreeC then !c.treeROnly else c.discards > 0
    requires multiset(order) == multiset(log) && FileSize(c, kind, |file|)
    ensures IsFile(c, RowsOf(c, p, kind, labels), kind, s, PutAll(c.u, p, kind, s, file, order))
    ensures IsRoot(c, RowsOf(c, p, kind, labels), s, if kind == TreeC then tops[p].rootsC else tops[p].rootsR)
  {
    hide PartDone, CpuDone, InputsOk, IsFile, RowsOf, PutAll, ReaderOk, FileSize, PlacesOk, RootsOk, RunOf, IsRoot;
    var inputC, inputR := tops[p].inputC, tops[p].inputR;
    FilesRight(c, p, kind, labels, log, order, inputC, inputR, s, file);
    RunIsOk(c, p, kind, labels, inputC, inputR);
    RootIsRow(c, p, kind, RowsOf(c, p, kind, labels), InputOf(kind, inputC, inputR),
              if kind == TreeC then tops[p].rootsC else tops[p].rootsR, s);
  }

  /** The roots have the node of a sector's top row. */
  ghost predicate IsRoot(c: Config, rows: seq<seq<int>>, s: nat, roots: seq<int>) {
    && s < |rows| == |roots| && |rows[s]| == Pow(c.u.arity, c.u.Levels())
    && Row(c.f, c.u.arity, rows[s], c.u.Levels(), c.u.Levels()) == [roots[s]]
  }

  lemma RootIsRow(c: Config, p: nat, kind: Kind, rows: seq<seq<int>>, input: seq<int>, roots: seq<int>, s: nat)
    requires c.Ok() && s < c.u.sectors && RootsOk(c, input, roots)
    requires RunOk(c.u, c.f, rows, c.PlacesOf(kind).skip, RunOf(c, p, kind, input))
    ensures IsRoot(c, rows, s, roots)
  {
    hide Merkle, Row, Stashed, LeavesOk, ColumnsOk, PlacesOk;
    CpuNodes(c.u, c.f, rows, input, s, c.u.top - 1, 0);
  }

  const SUM: seq<int> -> int := (s: seq<int>) => if |s| == 2 then s[0] + s[1] else 0

  lemma SumOfOnes()
    ensures |[1, 1, 1, 1]| == Pow(2, 2) && Row(SUM, 2, [1, 1, 1, 1], 2, 2) == [4]
  {
    assert Pow(2, 2) == 4 && Pow(2, 1) == 2 && Pow(2, 0) == 1;
    assert HashRow(SUM, 2, [1, 1, 1, 1], 1) == [2];
    assert HashRow(SUM, 2, [1, 1, 1, 1], 2) == [2, 2];
    assert Row(SUM, 2, [1, 1, 1, 1], 2, 1) == [2, 2];
    assert HashRow(SUM, 2, [2, 2], 1) == [4];
  }

  /** One stream that reads its four nodes in one batch. */
  const ONE_BATCH := Setup(2, 2, 1, 1, 0, 2)

  lemma OneBatchOk()
    ensures ONE_BATCH.Ok()
  {
    assert Pow(2, 2) == 4;
  }

  lemma ZeroAt(e: nat)
    ensures Element([0, 0], e) == 0
  {
  }

  lemma ZeroInput(i: nat)
    requires ONE_BATCH.Ok() && i < 2
    ensures CpuInput(ONE_BATCH, [0, 0], 0, 0, i) == 0
  {
    hide Pow, Slot, Div, Element;
    ZeroAt(i);
    assert i / 2 * 2 * 1 + 0 * 2 + i % 2 == i;
  }

  lemma ZeroInputs()
    requires ONE_BATCH.Ok()
    ensures CpuInputs(ONE_BATCH, [0, 0], 0, 0) == [0, 0]
  {
    hide Pow, CpuInput;
    ZeroInput(0);
    ZeroInput(1);
  }

  lemma StaleTop()
    requires ONE_BATCH.Ok()
    ensures Merkle(CpuTree(ONE_BATCH, SUM, [0, 0], 0), 1, 0) == 0
  {
    ZeroInputs();
    hide CpuInputs, Pow;
  }

  /** With one batch per stream no item is an inner node, and nothing is ever copied to the results: the CPU
    * hashes what was there before. The sum of four ones, reduced from fresh results, is 0 instead of 4.
    */
  lemma StaleResults()
    ensures ONE_BATCH.Ok() && ONE_BATCH.height == 0 && |[1, 1, 1, 1]| == Pow(2, ONE_BATCH.Levels())
    ensures Row(SUM, 2, [1, 1, 1, 1], ONE_BATCH.Levels(), ONE_BATCH.Levels()) == [4]
    ensures Merkle(CpuTree(ONE_BATCH, SUM, [0, 0], 0), ONE_BATCH.top - 1, 0) == 0
  {
    SumOfOnes();
    OneBatchOk();
    hide Row, Pow, CpuInputs, Merkle;
    StaleTop();
  }
}
