/** One GPU stream of PC2: the states the host polls it through, and the operations that its queue runs later. */
module Pc2Streams {
  import opened RingMath
  import opened Pc2Tree
  import opened Pc2Planner
  import opened Pc2Pair
  import opened Pc2Blocks
  import opened Pc2Files
  import opened Pc2Places
  import opened Pc2Writes

  /** The tables and the sizes of a run, the hashes, what the reader delivers, and the data to be sealed. */
  datatype Config = Config(u: Setup, f: seq<int> -> int, colHash: seq<int> -> int, layers: nat, discards: nat,
                           treeROnly: bool, c: Places, r: Places, load: (nat, nat, nat) -> seq<int>,
                           anyData: bool, hasData: nat -> bool, data: (nat, nat) -> int, add: (int, int) -> int)
  {
    ghost predicate Ok() {
      && u.Ok() && layers > 0 && PlacesOk(u, c) && c.skip == 0 && PlacesOk(u, r) && r.skip == discards + 1
      && (anyData <==> exists s: nat :: s < u.sectors && hasData(s))
      && forall l: nat, x: nat, n: nat :: |load(l, x, n)| == n * LayerSize()
    }

    /** The elements of one layer of a batch, all sectors. */
    function LayerSize(): nat { u.sectors * (u.arity * u.group) }

    /** The elements of a hashed group, all sectors. */
    function GroupSize(): nat { u.sectors * u.group }

    function PlacesOf(kind: Kind): Places { if kind == TreeC then c else r }
  }

  /** The first node of a partition, and of a batch of it, in the sector. */
  function First(c: Config, p: nat): nat {
    MulNat(p, Pow(c.u.arity, c.u.Levels()));
    p * Pow(c.u.arity, c.u.Levels())
  }

  function StartNode(c: Config, p: nat, r: nat, n: nat): nat { First(c, p) + BatchStart(c.u, r, n) }

  /** What the reader delivers for a batch: all layers, or just the last one. */
  function Batch(c: Config, start: nat): seq<int>
    requires c.layers > 0
  {
    if c.treeROnly then c.load(c.layers - 1, start, 1) else c.load(0, start, c.layers)
  }

  /** The last layer of a batch in the host's buffer. */
  function LastLayer(c: Config, column: seq<int>): (d: seq<int>)
    requires c.layers > 0
  {
    if c.treeROnly then Prefix(column, c.LayerSize()) else Prefix(Tail(c, column), c.LayerSize())
  }

  /** Where the last layer starts in a buffer of all layers. */
  function Tail(c: Config, column: seq<int>): seq<int>
    requires c.layers > 0
  {
    var off := (c.layers - 1) * c.LayerSize();
    if 0 <= off <= |column| then column[off..] else []
  }

  /** The first elements of a buffer. */
  function Prefix(s: seq<int>, n: nat): (r: seq<int>)
    ensures |r| == n
    ensures |s| == n ==> r == s
  {
    seq(n, i requires 0 <= i < n => Element(s, i))
  }

  /** A sector's label, encoded if there is data for the sector. */
  function Sealed(c: Config, s: nat, x: nat, value: int): int {
    if c.hasData(s) then c.add(value, c.data(s, x)) else value
  }

  /** The encoded last layer of a batch. */
  function Replica(c: Config, layer: seq<int>, start: nat): (r: seq<int>)
    requires c.u.sectors > 0
    ensures |r| == c.LayerSize()
  {
    seq(c.LayerSize(), k requires 0 <= k < c.LayerSize() =>
      Sealed(c, Slot(k, c.u.sectors), start + Div(k, c.u.sectors), Element(layer, k)))
  }

  function ReplicaOf(c: Config, start: nat): (r: seq<int>)
    requires c.u.sectors > 0 && c.layers > 0
  {
    Replica(c, LastLayer(c, Batch(c, start)), start)
  }

  /** What tree C's and tree R's leaves are hashed from, by stream and batch. */
  function DataC(c: Config, p: nat): (nat, nat) -> seq<int> {
    (r: nat, n: nat) => if c.layers > 0 then Batch(c, StartNode(c, p, r, n)) else []
  }

  function DataR(c: Config, p: nat): (nat, nat) -> seq<int> {
    (r: nat, n: nat) => if c.u.sectors > 0 && c.layers > 0 then ReplicaOf(c, StartNode(c, p, r, n)) else []
  }

  /** What the streams' buffers hold in the end, for each tree of a partition. */
  function RunOf(c: Config, p: nat, kind: Kind, input: seq<int>): Run
    requires c.u.Ok() && c.layers > 0
  {
    if kind == TreeC then TreeCRun(c.u, c.f, c.colHash, c.layers, DataC(c, p), input)
    else TreeRRun(c.u, c.f, DataR(c, p), input)
  }

  /** The digest of a node of a stream's tree. */
  function Node(c: Config, p: nat, kind: Kind, r: nat, id: NodeId): seq<int>
    requires c.u.Ok() && c.layers > 0
  {
    Merkle(StreamTree(c.u, c.f, RunOf(c, p, kind, []).leaf(r)), id.layer, id.node)
  }

  /** The shape of a stream's tree, which is all that its schedulers depend on. */
  function Shape(u: Setup): (t: Tree<seq<int>>) { Tree(u.arity, u.height, x => [], x => []) }

  /** What the GPU does for the host, in the order it was asked to. */
  datatype Op = Upload | HashColumns(out: int) | Patch | LeavesC(out: int) | LeavesR(out: int)
              | HashC(out: int, inputs: seq<int>) | HashR(out: int, inputs: seq<int>)
              | CopyColumns(out: int) | CopyC(out: int) | CopyR(out: int) | StashC | StashR(out: int)
              | Unlock | SendC(job: Job, pos: int) | SendR(job: Job, pos: int) | Wake

  datatype State = Idle | DataRead | DataWait | HashColumn | HashColumnLeaves | HashLeaf | HashWait | Done

  /** A stream's state, its schedulers and buffers, the data under way, and what it has sent to the disk
    * queue and copied to its place among the results.
    */
  datatype Stream = Stream(
    state: State, last: bool, awake: bool, pool: Pool, contents: map<int, seq<int>>, c: Agenda, r: Agenda,
    workC: WorkItem, workR: WorkItem, start: nat, valid: bool, column: seq<int>, columnD: seq<int>, replica: seq<int>,
    diskC: seq<int>, diskR: seq<int>, queue: seq<Op>, sent: seq<Write>, stashC: seq<int>, stashR: seq<int>)

  function Mem(contents: map<int, seq<int>>, b: int): seq<int> { if b in contents then contents[b] else [] }

  function Mems(contents: map<int, seq<int>>, bs: seq<int>): (r: seq<seq<int>>)
    ensures |r| == |bs|
  {
    seq(|bs|, i requires 0 <= i < |bs| => Mem(contents, bs[i]))
  }

  function Kept(contents: map<int, seq<int>>, b: int, d: seq<int>): map<int, seq<int>> {
    contents[b := Over(Mem(contents, b), d)]
  }

  /** What one operation does. */
  function Do(c: Config, p: nat, s: Stream, op: Op): Stream
    requires c.u.Ok() && c.layers > 0
  {
    match op
    case Upload => s.(columnD := Over(s.columnD, s.column))
    case HashColumns(out) => s.(contents := Kept(s.contents, out, ColumnBlock(c.u, c.colHash, c.layers, s.columnD)))
    case Patch => s.(columnD := Patched(c, s.columnD, s.replica))
    case LeavesC(out) => s.(contents := Kept(s.contents, out, HashPacked(c.u, c.f, Mem(s.contents, out))))
    case LeavesR(out) => s.(contents := Kept(s.contents, out, HashStrided(c.u, c.f, Tail(c, s.columnD))))
    case HashC(out, inputs) => s.(contents := Kept(s.contents, out, HashPtrs(c.u, c.f, Mems(s.contents, inputs))))
    case HashR(out, inputs) => s.(contents := Kept(s.contents, out, HashPtrs(c.u, c.f, Mems(s.contents, inputs))))
    case CopyColumns(out) => s.(diskC := Prefix(Mem(s.contents, out), c.LayerSize()))
    case CopyC(out) => s.(diskC := Prefix(Mem(s.contents, out), c.GroupSize()))
    case CopyR(out) => s.(diskR := Prefix(Mem(s.contents, out), c.GroupSize()))
    case StashC => s.(stashC := Prefix(s.diskC, c.GroupSize()))
    case StashR(out) => s.(stashR := Prefix(Mem(s.contents, out), c.GroupSize()))
    case Unlock => s
    case SendC(job, pos) => s.(sent := s.sent + [Write(p, TreeC, job, pos, s.diskC)])
    case SendR(job, pos) => s.(sent := s.sent + [Write(p, TreeR, job, pos, s.diskR)])
    case Wake => s.(awake := true)
  }

  /** The device's column buffer with the replica in place of the last layer. */
  function Patched(c: Config, columnD: seq<int>, replica: seq<int>): seq<int>
    requires c.layers > 0
  {
    var off := (c.layers - 1) * c.LayerSize();
    if 0 <= off <= |columnD| then columnD[..off] + Over(columnD[off..], replica) else columnD
  }

  /** The GPU runs the operation at the head of a stream's queue. */
  function Exec(c: Config, p: nat, s: Stream): Stream
    requires c.u.Ok() && c.layers > 0 && s.queue != []
  {
    Do(c, p, s, s.queue[0]).(queue := s.queue[1..])
  }

  function RunOps(c: Config, p: nat, s: Stream, ops: seq<Op>): Stream
    requires c.u.Ok() && c.layers > 0
    decreases |ops|
  {
    if ops == [] then s else RunOps(c, p, Do(c, p, s, ops[0]), ops[1..])
  }

  /** Where a stream ends up when its queue has run. */
  function End(c: Config, p: nat, s: Stream): Stream
    requires c.u.Ok() && c.layers > 0
  {
    RunOps(c, p, s.(queue := []), s.queue)
  }

  /** A buffer starts with this block. */
  ghost predicate Holds(contents: map<int, seq<int>>, b: int, d: seq<int>) {
    b in contents && |d| <= |contents[b]| && contents[b][..|d|] == d
  }

  /** What an operation is about to read is what it should be: no buffer has been reused before its digest
    * was hashed, and the replica is in place.
    */
  ghost predicate Reads(c: Config, p: nat, r: nat, s: Stream, op: Op)
    requires c.u.Ok() && c.layers > 0
  {
    match op
    case HashC(_, inputs) => inputs == s.workC.inputs && InputsHold(c, p, TreeC, r, s.workC, s.contents)
    case HashR(_, inputs) => inputs == s.workR.inputs && InputsHold(c, p, TreeR, r, s.workR, s.contents)
    case LeavesC(out) =>
      s.workC.idx.node >= 0 &&
      Holds(s.contents, out, ColumnBlock(c.u, c.colHash, c.layers, Batch(c, StartNode(c, p, r, s.workC.idx.node))))
    case LeavesR(_) => s.workR.idx.node >= 0 && Tail(c, s.columnD) == ReplicaOf(c, StartNode(c, p, r, s.workR.idx.node))
    case _ => true
  }

  ghost predicate Safe(c: Config, p: nat, r: nat, s: Stream, ops: seq<Op>)
    requires c.u.Ok() && c.layers > 0
    decreases |ops|
  {
    ops == [] || (Reads(c, p, r, s, ops[0]) && Safe(c, p, r, Do(c, p, s, ops[0]), ops[1..]))
  }

  /** Each child's digest is in its buffer. */
  ghost predicate InputsHold(c: Config, p: nat, kind: Kind, r: nat, w: WorkItem, contents: map<int, seq<int>>)
    requires c.u.Ok() && c.layers > 0
  {
    !w.isLeaf ==>
      && w.idx.layer > 1 && |w.inputs| == c.u.arity
      && forall i :: 0 <= i < c.u.arity ==>
           Holds(contents, w.inputs[i], Node(c, p, kind, r, Child(w.idx.layer - 1, c.u.arity * w.idx.node, i)))
  }

  /** All held buffers but those of `but` contain their nodes' digests. */
  ghost predicate DigestsBut(c: Config, p: nat, kind: Kind, r: nat, held: Held, contents: map<int, seq<int>>,
                             but: set<NodeId>)
    requires c.u.Ok() && c.layers > 0
  {
    forall id :: id in held && id !in but ==> Holds(contents, held[id], Node(c, p, kind, r, id))
  }

  ghost predicate BothBut(c: Config, p: nat, r: nat, v: View, contents: map<int, seq<int>>, but: set<NodeId>)
    requires c.u.Ok() && c.layers > 0
  {
    && (!c.treeROnly ==> DigestsBut(c, p, TreeC, r, v.heldC, contents, but))
    && DigestsBut(c, p, TreeR, r, v.heldR, contents, but)
  }

  /** The write that a job of a partition asks for. */
  function TheWrite(c: Config, p: nat, kind: Kind, j: Job): Write
    requires c.u.Ok() && c.layers > 0
  {
    Write(p, kind, j, if PlacesHave(c.u, c.PlacesOf(kind), j) then Pos(c.u, c.PlacesOf(kind), j) else 0,
          Block(c.u, c.f, RunOf(c, p, kind, []), j))
  }

  /** The writes that an item of a stream leads to. */
  function WritesOf(c: Config, p: nat, r: nat, id: NodeId): seq<Write>
    requires c.u.Ok() && c.layers > 0 && id.node >= 0
  {
    (if id.layer == 1 && !c.treeROnly then [TheWrite(c, p, TreeC, Columns(r, id.node))] else [])
    + (if !c.treeROnly then [TheWrite(c, p, TreeC, Part(r, id.layer, id.node))] else [])
    + (if id.layer > 1 && id.layer > c.discards then [TheWrite(c, p, TreeR, Part(r, id.layer, id.node))] else [])
  }

  function Expected(c: Config, p: nat, r: nat, trace: seq<NodeId>): seq<Write>
    requires c.u.Ok() && c.layers > 0
  {
    if trace == [] then []
    else
      var n := |trace| - 1;
      Expected(c, p, r, trace[..n]) + if trace[n].node >= 0 then WritesOf(c, p, r, trace[n]) else []
  }

  lemma RunNext(c: Config, p: nat, s: Stream, ops: seq<Op>)
    requires c.u.Ok() && c.layers > 0 && ops != []
    ensures RunOps(c, p, s, ops) == RunOps(c, p, Do(c, p, s, ops[0]), ops[1..])
  {
  }

  /** The operations that write a node's buffer. */
  predicate Hashes(op: Op) { op.HashColumns? || op.LeavesC? || op.LeavesR? || op.HashC? || op.HashR? }

  lemma HashesBesidesQueue(c: Config, p: nat, s: Stream, op: Op, queue: seq<Op>)
    requires c.u.Ok() && c.layers > 0 && Hashes(op)
    ensures Do(c, p, s, op).(queue := queue) == Do(c, p, s.(queue := queue), op)
  {
    hide Kept, HashPtrs, HashPacked, HashStrided, ColumnBlock, Patched, Prefix, Mem, Mems, Over, Tail;
  }

  lemma CopiesBesidesQueue(c: Config, p: nat, s: Stream, op: Op, queue: seq<Op>)
    requires c.u.Ok() && c.layers > 0 && !Hashes(op)
    ensures Do(c, p, s, op).(queue := queue) == Do(c, p, s.(queue := queue), op)
  {
    hide Kept, HashPtrs, HashPacked, HashStrided, ColumnBlock, Patched, Prefix, Mem, Mems, Over, Tail;
  }

  lemma DoBesidesQueue(c: Config, p: nat, s: Stream, op: Op, queue: seq<Op>)
    requires c.u.Ok() && c.layers > 0
    ensures Do(c, p, s, op).(queue := queue) == Do(c, p, s.(queue := queue), op)
  {
    hide Do;
    if Hashes(op) { HashesBesidesQueue(c, p, s, op, queue); } else { CopiesBesidesQueue(c, p, s, op, queue); }
  }

  /** Running the head of the queue does not change where it leads. */
  lemma EndKept(c: Config, p: nat, s: Stream)
    requires c.u.Ok() && c.layers > 0 && s.queue != []
    ensures End(c, p, Exec(c, p, s)) == End(c, p, s)
  {
    hide Do, RunOps;
    DoBesidesQueue(c, p, s, s.queue[0], []);
    RunNext(c, p, s.(queue := []), s.queue);
  }
}
