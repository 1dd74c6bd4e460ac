/** What every stream of PC2 keeps true, whichever state the host finds it in. */
module Pc2Polls {
  import opened RingMath
  import opened Pc2Tree
  import opened Pc2Planner
  import opened Pc2Pair
  import opened Pc2Blocks
  import opened Pc2Places
  import opened Pc2Writes
  import opened Pc2Streams
  import opened Pc2Stages
  import opened Pc2Plans

  predicate IsStash(op: Op) { op.StashC? || op.StashR? }

  /** The queue ends with the one operation that wakes the host. */
  predicate WakesLast(q: seq<Op>) {
    |q| > 0 && if |q| == 1 then q[0] == Wake else q[0] != Wake && WakesLast(q[1..])
  }

  /** Results are copied only before the lock on them is given back. */
  predicate Guarded(q: seq<Op>) {
    q == [] ||
    (&& (IsStash(q[0]) ==> Unlock in q[1..])
     && (q[0] == Unlock ==> forall op :: op in q[1..] ==> op != Unlock && !IsStash(op))
     && Guarded(q[1..]))
  }

  /** A stream sends only its own jobs. */
  predicate Mine(r: nat, op: Op) {
    match op
    case SendC(job, _) => !job.Top? && job.stream == r
    case SendR(job, _) => !job.Top? && job.stream == r
    case _ => true
  }

  ghost predicate QueueOk(r: nat, s: Stream) {
    && (if s.awake then s.queue == [] else WakesLast(s.queue)) && |s.queue| <= 10
    && Guarded(s.queue) && (forall op :: op in s.queue ==> Mine(r, op))
    && (s.queue != [] ==> s.state == HashColumnLeaves || s.state == HashWait)
    && (Unlock in s.queue ==> s.state == HashWait)
  }

  lemma {:induction false} NoStash(q: seq<Op>)
    requires Guarded(q) && Unlock !in q
    ensures forall op :: op in q ==> !IsStash(op)
  {
    if q != [] {
      NoStash(q[1..]);
      assert q == [q[0]] + q[1..];
    }
  }

  lemma ThenShape(r: nat, asked: bool, op: Op, rest: seq<Op>)
    requires WakesLast(rest) && Guarded(rest) && (forall o :: o in rest ==> Mine(r, o))
    requires asked ==> op != Wake && Mine(r, op)
    requires asked && IsStash(op) ==> Unlock in rest
    requires asked && op == Unlock ==> forall o :: o in rest ==> o != Unlock && !IsStash(o)
    ensures
      var q := Then(asked, op, rest);
      WakesLast(q) && Guarded(q) && (forall o :: o in q ==> Mine(r, o) && (o == op || o in rest))
      && (Unlock in q <==> (asked && op == Unlock) || Unlock in rest) && |q| <= |rest| + 1
  {
    assert asked ==> ([op] + rest)[1..] == rest;
  }

  lemma WakeShape(r: nat)
    ensures WakesLast([Wake]) && Guarded([Wake]) && Unlock !in [Wake] && forall op :: op in [Wake] ==> Mine(r, op)
  {
  }

  /** The root's digests are at hand for the results once the last item is done. */
  ghost predicate RootOut(c: Config, p: nat, r: nat, s: Stream)
    requires c.u.Ok() && c.layers > 0
  {
    var root := NodeId(c.u.height + 1, 0);
    s.last && c.u.height > 0 ==>
      s.stashR == Node(c, p, TreeR, r, root) && (!c.treeROnly ==> s.stashC == Node(c, p, TreeC, r, root))
  }

  /** Every item taken so far is hashed and sent. */
  ghost predicate Landed(c: Config, p: nat, r: nat, s: Stream, v: View)
    requires c.u.Ok() && c.layers > 0
  {
    BothBut(c, p, r, v, s.contents, {}) && s.sent == Expected(c, p, r, v.trace) && RootOut(c, p, r, s)
  }

  /** Every item but the one under way is hashed, and that one's inputs are unharmed. */
  ghost predicate Flying(c: Config, p: nat, r: nat, s: Stream, v: View)
    requires c.u.Ok() && c.layers > 0
  {
    var id := s.workC.idx;
    && v.trace != [] && v.trace[|v.trace| - 1] == id && Distinct(v, s.workC, s.workR)
    && id.layer <= c.u.height + 1 && id.node < Groups(c.u, id.layer)
    && BothBut(c, p, r, v, s.contents, {id})
    && (!c.treeROnly ==> InputsHold(c, p, TreeC, r, s.workC, s.contents))
    && InputsHold(c, p, TreeR, r, s.workR, s.contents)
    && (s.last <==> id == NodeId(c.u.height + 1, 0))
  }

  /** What has been sent before the item under way. */
  ghost function Before(c: Config, p: nat, r: nat, v: View): seq<Write>
    requires c.u.Ok() && c.layers > 0 && v.trace != []
  {
    Expected(c, p, r, v.trace[..|v.trace| - 1])
  }

  ghost predicate AtStart(c: Config, p: nat, r: nat, s: Stream)
    requires c.u.Ok() && c.layers > 0
  {
    s.workC.idx.node >= 0 && s.start == StartNode(c, p, r, s.workC.idx.node)
  }

  /** The columns are hashed and sent, and the device has the whole batch. */
  ghost predicate ColumnsIn(c: Config, p: nat, r: nat, s: Stream, v: View)
    requires c.u.Ok() && c.layers > 0 && v.trace != [] && s.workC.idx.node >= 0
  {
    && Holds(s.contents, s.workC.buf, ColumnBlock(c.u, c.colHash, c.layers, Batch(c, s.start)))
    && s.columnD == Batch(c, s.start)
    && s.sent == Before(c, p, r, v) + [TheWrite(c, p, TreeC, Columns(r, s.workC.idx.node))]
  }

  /** What holds in each state, once the queue has run. */
  ghost predicate InState(c: Config, p: nat, r: nat, s: Stream, v: View)
    requires c.u.Ok() && c.layers > 0
  {
    match s.state
    case Idle => !s.last && Landed(c, p, r, s, v)
    case DataRead => Flying(c, p, r, s, v) && s.workC.isLeaf && s.sent == Before(c, p, r, v)
    case DataWait =>
      && Flying(c, p, r, s, v) && s.workC.isLeaf && s.sent == Before(c, p, r, v)
      && AtStart(c, p, r, s) && (s.valid ==> s.column == Batch(c, s.start))
    case HashColumn =>
      && Flying(c, p, r, s, v) && s.workC.isLeaf && s.sent == Before(c, p, r, v) && !c.treeROnly
      && AtStart(c, p, r, s) && s.column == Batch(c, s.start) && s.replica == ReplicaOf(c, s.start)
    case HashColumnLeaves =>
      && Flying(c, p, r, s, v) && s.workC.isLeaf && AtStart(c, p, r, s) && s.replica == ReplicaOf(c, s.start)
      && if c.treeROnly then s.sent == Before(c, p, r, v) else ColumnsIn(c, p, r, s, v)
    case HashLeaf => Flying(c, p, r, s, v) && !s.workC.isLeaf && s.sent == Before(c, p, r, v)
    case HashWait => Landed(c, p, r, s, v)
    case Done => s.last && Landed(c, p, r, s, v)
  }

  /** The schedulers' part of a stream. */
  ghost predicate TakesOk(c: Config, s: Stream, v: View, lost: nat) {
    PairOk(Shape(c.u), v, s.c, s.r, s.pool, lost) && (s.last <==> s.c.stack == [])
  }

  ghost predicate StreamOk(c: Config, p: nat, r: nat, s: Stream, v: View, lost: nat) {
    && c.Ok() && TakesOk(c, s, v, lost) && QueueOk(r, s)
    && Safe(c, p, r, s.(queue := []), s.queue)
    && var e := End(c, p, s);
    InState(c, p, r, e, v) && |e.columnD| == c.layers * c.LayerSize()
  }

  lemma EndOfEmpty(c: Config, p: nat, s: Stream)
    requires c.u.Ok() && c.layers > 0 && s.queue == []
    ensures End(c, p, s) == s
  {
  }

  /** The host's side of a stream. */
  predicate SameHost(s: Stream, e: Stream) {
    && e.state == s.state && e.last == s.last && e.workC == s.workC && e.workR == s.workR && e.start == s.start
    && e.pool == s.pool && e.c == s.c && e.r == s.r && e.valid == s.valid && e.column == s.column
    && e.replica == s.replica && e.queue == s.queue
  }

  lemma HashesKeepHost(c: Config, p: nat, s: Stream, op: Op)
    requires c.u.Ok() && c.layers > 0 && Hashes(op)
    ensures SameHost(s, Do(c, p, s, op))
  {
    hide Kept, HashPtrs, HashPacked, HashStrided, ColumnBlock, Patched, Prefix, Mem, Mems, Over, Tail;
  }

  lemma CopiesKeepHost(c: Config, p: nat, s: Stream, op: Op)
    requires c.u.Ok() && c.layers > 0 && !Hashes(op)
    ensures SameHost(s, Do(c, p, s, op))
  {
    hide Kept, HashPtrs, HashPacked, HashStrided, ColumnBlock, Patched, Prefix, Mem, Mems, Over, Tail;
  }

  lemma HostKeptBy(c: Config, p: nat, s: Stream, op: Op)
    requires c.u.Ok() && c.layers > 0
    ensures SameHost(s, Do(c, p, s, op))
  {
    hide Do, SameHost;
    if Hashes(op) { HashesKeepHost(c, p, s, op); } else { CopiesKeepHost(c, p, s, op); }
  }

  /** Operations leave the host's side alone. */
  lemma {:induction false} HostKept(c: Config, p: nat, s: Stream, ops: seq<Op>)
    requires c.u.Ok() && c.layers > 0
    ensures SameHost(s, RunOps(c, p, s, ops))
    decreases |ops|
  {
    hide Do;
    if ops != [] {
      HostKeptBy(c, p, s, ops[0]);
      HostKept(c, p, Do(c, p, s, ops[0]), ops[1..]);
    }
  }

  /** The device's column buffer keeps its size. */
  lemma StillSize(before: seq<int>, d: seq<int>)
    requires |d| <= |before|
    ensures |Over(before, d)| == |before| && (|d| == |before| ==> Over(before, d) == d)
  {
  }

  /** The GPU runs an operation: nothing is read too late, and the stream stays on its way. */
  lemma ExecOk(c: Config, p: nat, r: nat, s: Stream, v: View, lost: nat)
    requires StreamOk(c, p, r, s, v, lost) && s.queue != []
    ensures Reads(c, p, r, s, s.queue[0])
    ensures StreamOk(c, p, r, Exec(c, p, s), v, lost)
  {
    hide Do, RunOps, InState, PairOk, Reads;
    var op := s.queue[0];
    HostKeptBy(c, p, s, op);
    EndKept(c, p, s);
    DoBesidesQueue(c, p, s, op, []);
    QueueAfter(c, p, r, s);
    ReadsBesidesQueue(c, p, r, s, op);
    SafeNext(c, p, r, s.(queue := []), s.queue);
  }

  lemma ReadsBesidesQueue(c: Config, p: nat, r: nat, s: Stream, op: Op)
    requires c.u.Ok() && c.layers > 0
    ensures Reads(c, p, r, s.(queue := []), op) <==> Reads(c, p, r, s, op)
  {
    hide InputsHold, Holds, Batch, StartNode, Tail, ReplicaOf, ColumnBlock;
  }

  lemma SafeNext(c: Config, p: nat, r: nat, s: Stream, ops: seq<Op>)
    requires c.u.Ok() && c.layers > 0 && ops != [] && Safe(c, p, r, s, ops)
    ensures Reads(c, p, r, s, ops[0]) && Safe(c, p, r, Do(c, p, s, ops[0]), ops[1..])
  {
    hide Reads, Do;
  }

  lemma QueueAfter(c: Config, p: nat, r: nat, s: Stream)
    requires c.u.Ok() && c.layers > 0 && QueueOk(r, s) && s.queue != []
    ensures QueueOk(r, Exec(c, p, s))
  {
    hide Kept, HashPtrs, HashPacked, HashStrided, ColumnBlock, Patched, Prefix, Mem, Mems, Over, Tail;
    assert s.queue == [s.queue[0]] + s.queue[1..];
    AwakeAfter(c, p, s, s.queue[0]);
    HostKeptBy(c, p, s, s.queue[0]);
    hide Do;
  }

  lemma AwakeAfter(c: Config, p: nat, s: Stream, op: Op)
    requires c.u.Ok() && c.layers > 0
    ensures Do(c, p, s, op).awake == (s.awake || op == Wake)
  {
    hide Kept, HashPtrs, HashPacked, HashStrided, ColumnBlock, Patched, Prefix, Mem, Mems, Over, Tail;
  }

  /** The host asks for a stage: where the queue leads decides everything else. */
  lemma Asked(c: Config, p: nat, r: nat, s: Stream, s': Stream, plan: seq<Op>, e: Stream, v: View, lost: nat)
    requires c.Ok() && TakesOk(c, s, v, lost) && s.queue == []
    requires s' == s.(state := s'.state, awake := false, queue := plan)
    requires RunOps(c, p, s'.(queue := []), plan) == e && Safe(c, p, r, s'.(queue := []), plan)
    requires WakesLast(plan) && Guarded(plan) && |plan| <= 10 && forall op :: op in plan ==> Mine(r, op)
    requires s'.state == HashColumnLeaves || s'.state == HashWait
    requires Unlock in plan ==> s'.state == HashWait
    requires InState(c, p, r, e, v) && |e.columnD| == c.layers * c.LayerSize()
    ensures StreamOk(c, p, r, s', v, lost)
  {
    hide RunOps, Safe, InState, PairOk;
  }

  /** A stage with an empty queue. */
  lemma Quiet(c: Config, p: nat, r: nat, s: Stream, v: View, lost: nat)
    requires StreamOk(c, p, r, s, v, lost) && s.awake
    ensures s.queue == [] && InState(c, p, r, s, v) && |s.columnD| == c.layers * c.LayerSize()
  {
    hide RunOps, Safe, InState, PairOk;
    EndOfEmpty(c, p, s);
  }

  lemma StillQuiet(c: Config, p: nat, r: nat, s: Stream, v: View, lost: nat)
    requires c.Ok() && TakesOk(c, s, v, lost) && s.queue == [] && s.awake
    requires InState(c, p, r, s, v) && |s.columnD| == c.layers * c.LayerSize()
    ensures StreamOk(c, p, r, s, v, lost)
  {
    hide InState, PairOk;
    EndOfEmpty(c, p, s);
  }

  /** Taking the next items: their inputs have the children's digests, their buffers are no one else's. */
  lemma Taking(c: Config, p: nat, r: nat, s: Stream, s': Stream, v: View, lost: nat)
    requires StreamOk(c, p, r, s, v, lost) && s.state == Idle && s.awake && CanTake(Shape(c.u), s.c)
    requires CanTake(Shape(c.u), s.r)
    requires
      var t := Shape(c.u);
      var wc := Item(t, s.c, GotBuf(s.pool.free, s.pool.count));
      var pool := PoolAfter(s.pool, wc);
      var wr := Item(t, s.r, GotBuf(pool.free, pool.count));
      s' == s.(workC := wc, workR := wr, c := Taken(t, s.c, wc.buf), r := Taken(t, s.r, wr.buf),
               pool := PoolAfter(pool, wr), last := Taken(t, s.c, wc.buf).stack == [],
               state := if wc.isLeaf then DataRead else HashLeaf)
    ensures
      var l := s'.workC.idx.layer;
      |v.done| == c.u.height + 3 && l <= c.u.height + 1 &&
      StreamOk(c, p, r, s', ViewAfter(Shape(c.u), v, l, s'.workC.buf, s'.workR.buf), lost)
  {
    hide PairOk, CanTake, Item, Taken, PoolAfter, GotBuf, Expected, Node, Groups, TakenApart, FromChildren, ViewAfter;
    hide InState, DigestsBut, InputsHold, Landed, Flying, Distinct;
    var t, wc, wr := Shape(c.u), s'.workC, s'.workR;
    Quiet(c, p, r, s, v, lost);
    PairArity(t, v, s.c, s.r, s.pool, lost);
    StackThere(t, s.c);
    PairTaken(t, v, s.c, s.r, s.pool, lost, wc, wr);
    var v' := ViewAfter(t, v, wc.idx.layer, wc.buf, wr.buf);
    ViewTrace(t, v, wc.idx.layer, wc.buf, wr.buf);
    LastIsRoot(t, v, v', s.c, s.r, s'.c, s'.r, s.pool, s'.pool, lost, wc.idx);
    IdleLanded(c, p, r, s, v);
    TakenFlies(c, p, r, s, s', v, v');
    FliesInState(c, p, r, s', v');
    assert s'.state == DataRead || s'.state == HashLeaf;
    StillQuiet(c, p, r, s', v', lost);
  }

  lemma IdleLanded(c: Config, p: nat, r: nat, s: Stream, v: View)
    requires c.u.Ok() && c.layers > 0 && s.state == Idle && InState(c, p, r, s, v)
    ensures !s.last && Landed(c, p, r, s, v)
  {
  }

  lemma TakenFlies(c: Config, p: nat, r: nat, s: Stream, s': Stream, v: View, v': View)
    requires c.u.Ok() && c.layers > 0 && Landed(c, p, r, s, v)
    requires s'.contents == s.contents && s'.sent == s.sent && v'.trace == v.trace + [s'.workC.idx]
    requires TakenApart(v, v', s'.workC, s'.workR)
    requires FromChildren(Shape(c.u), v.heldC, s'.workC) && FromChildren(Shape(c.u), v.heldR, s'.workR)
    requires s'.workC.idx.layer <= c.u.height + 1 && 0 <= s'.workC.idx.node < Width(Shape(c.u), s'.workC.idx.layer)
    requires s'.last <==> s'.workC.idx == NodeId(c.u.height + 1, 0)
    ensures Flying(c, p, r, s', v') && s'.sent == Before(c, p, r, v')
  {
    hide Node, Holds, Expected, Pow, Gathered;
    var id := s'.workC.idx;
    assert v'.trace[..|v'.trace| - 1] == v.trace;
    if !c.treeROnly {
      DigestsTaken(c, p, TreeC, r, v.heldC, v'.heldC, s.contents, id);
      InputsTaken(c, p, TreeC, r, v.heldC, s'.workC, s.contents);
    }
    DigestsTaken(c, p, TreeR, r, v.heldR, v'.heldR, s.contents, id);
    InputsTaken(c, p, TreeR, r, v.heldR, s'.workR, s.contents);
  }

  lemma DigestsTaken(c: Config, p: nat, kind: Kind, r: nat, held: Held, held': Held, contents: map<int, seq<int>>,
                     id: NodeId)
    requires c.u.Ok() && c.layers > 0 && DigestsBut(c, p, kind, r, held, contents, {})
    requires forall k :: k in held' && k != id ==> k in held && held'[k] == held[k]
    ensures DigestsBut(c, p, kind, r, held', contents, {id})
  {
    hide Node, Holds;
  }

  lemma InputsTaken(c: Config, p: nat, kind: Kind, r: nat, held: Held, w: WorkItem, contents: map<int, seq<int>>)
    requires c.u.Ok() && c.layers > 0 && DigestsBut(c, p, kind, r, held, contents, {})
    requires FromChildren(Shape(c.u), held, w)
    ensures InputsHold(c, p, kind, r, w, contents)
  {
    hide Node, Holds;
    if !w.isLeaf {
      forall i | 0 <= i < c.u.arity
        ensures Holds(contents, w.inputs[i],
                      Node(c, p, kind, r, Child(w.idx.layer - 1, c.u.arity * w.idx.node, i)))
      {
        var child := Child(w.idx.layer - 1, c.u.arity * w.idx.node, i);
        assert child in held && w.inputs[i] == held[child];
      }
    }
  }

  lemma StackThere<D>(t: Tree<D>, a: Agenda)
    requires CanTake(t, a)
    ensures a.stack != []
  {
  }

  lemma ViewTrace<D>(t: Tree<D>, v: View, l: nat, bufC: int, bufR: int)
    requires |v.done| == t.height + 3 && l <= t.height + 1
    ensures ViewAfter(t, v, l, bufC, bufR).trace == v.trace + [NodeId(l, v.done[l])]
  {
  }

  lemma FliesInState(c: Config, p: nat, r: nat, s: Stream, v: View)
    requires c.u.Ok() && c.layers > 0 && Flying(c, p, r, s, v) && s.sent == Before(c, p, r, v)
    requires s.state == if s.workC.isLeaf then DataRead else HashLeaf
    ensures InState(c, p, r, s, v)
  {
    hide Flying, Before;
  }
}
