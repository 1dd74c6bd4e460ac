/** All streams of PC2 together: what they share is the disk queue, the results and the lock on the results. */
module Pc2Machine {
  import opened Pc2Tree
  import opened Pc2Pair
  import opened Pc2Blocks
  import opened Pc2Writes
  import opened Pc2Streams
  import opened Pc2Polls
  import opened Pc2Logs

  /** Who may write or read the results: the stream that copies its root there, or the CPU, for which the
    * host takes the lock.
    */
  datatype Lock = Free | ByStream(stream: nat) | ByHost | ByCpu

  datatype Machine = Machine(streams: seq<Stream>, log: seq<Write>, resultsC: seq<int>, resultsR: seq<int>, lock: Lock)

  /** A stream's part of the results overwritten. */
  function Spliced(u: Setup, results: seq<int>, r: nat, block: seq<int>): seq<int> {
    var stride := u.sectors * u.group;
    if 0 <= r * stride <= (r + 1) * stride <= |results| then
      results[..r * stride] + block + results[(r + 1) * stride..]
    else results
  }

  /** The GPU runs the next operation of a stream; some reach what the streams share. */
  function Stepped(c: Config, p: nat, m: Machine, r: nat): Machine
    requires c.u.Ok() && c.layers > 0 && r < |m.streams| && m.streams[r].queue != []
  {
    var s := m.streams[r];
    var m' := m.(streams := m.streams[r := Exec(c, p, s)]);
    match s.queue[0]
    case SendC(job, pos) => m'.(log := m.log + [Write(p, TreeC, job, pos, s.diskC)])
    case SendR(job, pos) => m'.(log := m.log + [Write(p, TreeR, job, pos, s.diskR)])
    case StashC => m'.(resultsC := Spliced(c.u, m.resultsC, r, Prefix(s.diskC, c.GroupSize())))
    case StashR(out) => m'.(resultsR := Spliced(c.u, m.resultsR, r, Prefix(Mem(s.contents, out), c.GroupSize())))
    case Unlock => m'.(lock := Free)
    case _ => m'
  }

  ghost predicate ResultsMatch(c: Config, m: Machine) {
    && |m.resultsR| == c.u.streams * c.GroupSize() && |m.streams| == c.u.streams
    && (!c.treeROnly ==> |m.resultsC| == c.u.streams * c.GroupSize())
    && (forall r: nat :: r < c.u.streams ==> Slice(c.u, m.resultsR, r) == m.streams[r].stashR)
    && (!c.treeROnly ==> forall r: nat :: r < c.u.streams ==> Slice(c.u, m.resultsC, r) == m.streams[r].stashC)
  }

  ghost predicate LogMatches(c: Config, p: nat, m: Machine)
    requires |m.streams| == c.u.streams
  {
    && (forall w :: w in m.log ==> Sender(c.u, w.job) <= c.u.streams && w.part <= p)
    && (forall r: nat :: r < c.u.streams ==> From(c.u, m.log, p, r) == m.streams[r].sent)
  }

  ghost predicate LockOk(c: Config, m: Machine)
    requires |m.streams| == c.u.streams
  {
    && (forall r: nat :: r < c.u.streams ==> (Unlock in m.streams[r].queue <==> m.lock == ByStream(r)))
    && (m.lock.ByStream? ==> m.lock.stream < c.u.streams && c.u.height > 0)
  }

  ghost predicate StreamsOk(c: Config, p: nat, m: Machine, views: seq<View>, lost: nat) {
    && c.Ok() && |m.streams| == |views| == c.u.streams
    && forall r: nat :: r < c.u.streams ==> StreamOk(c, p, r, m.streams[r], views[r], lost)
  }

  /** Every reachable state of the streams and what they share, for one partition. */
  ghost predicate MachineOk(c: Config, p: nat, m: Machine, views: seq<View>, lost: nat) {
    StreamsOk(c, p, m, views, lost) && ResultsMatch(c, m) && LogMatches(c, p, m) && LockOk(c, m)
  }

  /** A poll changes one stream and at most takes the lock. */
  lemma Polled(c: Config, p: nat, m: Machine, m': Machine, views: seq<View>, lost: nat, r: nat, s': Stream, v': View,
               takes: bool)
    requires MachineOk(c, p, m, views, lost) && r < c.u.streams && StreamOk(c, p, r, s', v', lost)
    requires s'.sent == m.streams[r].sent && s'.stashC == m.streams[r].stashC && s'.stashR == m.streams[r].stashR
    requires takes ==> m.lock == Free && Unlock in s'.queue && c.u.height > 0
    requires !takes ==> (Unlock in s'.queue <==> Unlock in m.streams[r].queue)
    requires m' == m.(streams := m.streams[r := s'], lock := if takes then ByStream(r) else m.lock)
    ensures MachineOk(c, p, m', views[r := v'], lost)
  {
    hide StreamOk, From, Slice;
  }

  /** A block put in a stream's place is there, and all others stay. */
  lemma SplicedAt(u: Setup, results: seq<int>, r: nat, block: seq<int>)
    requires |results| == u.streams * (u.sectors * u.group) && r < u.streams && |block| == u.sectors * u.group
    ensures |Spliced(u, results, r, block)| == |results|
    ensures Slice(u, Spliced(u, results, r, block), r) == block
    ensures forall k: nat :: k < u.streams && k != r ==>
      Slice(u, Spliced(u, results, r, block), k) == Slice(u, results, k)
  {
    var stride := u.sectors * u.group;
    Slots(stride, r, u.streams);
    var results' := Spliced(u, results, r, block);
    assert results'[r * stride..(r + 1) * stride] == block;
    forall k: nat | k < u.streams && k != r ensures Slice(u, results', k) == Slice(u, results, k) {
      Slots(stride, k, u.streams);
      if k < r { Slots(stride, k, r); } else { Slots(stride, r, k); }
      SliceKept(results, results', r * stride, (r + 1) * stride, k * stride, (k + 1) * stride);
    }
  }

  lemma SliceKept(a: seq<int>, b: seq<int>, from: nat, upTo: nat, x: nat, y: nat)
    requires |a| == |b| && from <= upTo <= |a| && x <= y <= |a| && (y <= from || upTo <= x)
    requires forall i :: 0 <= i < |a| && !(from <= i < upTo) ==> b[i] == a[i]
    ensures a[x..y] == b[x..y]
  {
  }

  lemma SentBy(c: Config, p: nat, s: Stream, op: Op)
    requires c.u.Ok() && c.layers > 0
    ensures op.SendC? ==> Do(c, p, s, op).sent == s.sent + [Write(p, TreeC, op.job, op.pos, s.diskC)]
    ensures op.SendR? ==> Do(c, p, s, op).sent == s.sent + [Write(p, TreeR, op.job, op.pos, s.diskR)]
    ensures !op.SendC? && !op.SendR? ==> Do(c, p, s, op).sent == s.sent
  {
    hide Kept, HashPtrs, HashPacked, HashStrided, ColumnBlock, Patched, Prefix, Mem, Mems, Over, Tail;
  }

  lemma StashedBy(c: Config, p: nat, s: Stream, op: Op)
    requires c.u.Ok() && c.layers > 0
    ensures Do(c, p, s, op).stashC == if op.StashC? then Prefix(s.diskC, c.GroupSize()) else s.stashC
    ensures Do(c, p, s, op).stashR
            == if op.StashR? then Prefix(Mem(s.contents, op.out), c.GroupSize()) else s.stashR
  {
    hide Kept, HashPtrs, HashPacked, HashStrided, ColumnBlock, Patched, Prefix, Mem, Mems, Over, Tail;
  }

  /** What an operation does to the stream's own account of what it has sent and copied. */
  lemma Accounts(c: Config, p: nat, s: Stream)
    requires c.u.Ok() && c.layers > 0 && s.queue != []
    ensures
      var op, s' := s.queue[0], Exec(c, p, s);
      && (op.SendC? ==> s'.sent == s.sent + [Write(p, TreeC, op.job, op.pos, s.diskC)])
      && (op.SendR? ==> s'.sent == s.sent + [Write(p, TreeR, op.job, op.pos, s.diskR)])
      && (!op.SendC? && !op.SendR? ==> s'.sent == s.sent)
      && s'.stashC == (if op.StashC? then Prefix(s.diskC, c.GroupSize()) else s.stashC)
      && s'.stashR == (if op.StashR? then Prefix(Mem(s.contents, op.out), c.GroupSize()) else s.stashR)
      && s'.queue == s.queue[1..]
  {
    hide Do, Prefix, Mem;
    SentBy(c, p, s, s.queue[0]);
    StashedBy(c, p, s, s.queue[0]);
  }

  lemma LockAfter(r: nat, q: seq<Op>)
    requires q != [] && Guarded(q)
    ensures q[0] == Unlock ==> Unlock !in q[1..]
    ensures q[0] != Unlock ==> (Unlock in q <==> Unlock in q[1..])
    ensures IsStash(q[0]) ==> Unlock in q
  {
    assert q == [q[0]] + q[1..];
  }

  lemma LogAfter(c: Config, p: nat, m: Machine, m': Machine, r: nat)
    requires c.u.Ok() && c.layers > 0 && |m.streams| == c.u.streams && r < c.u.streams && LogMatches(c, p, m)
    requires m.streams[r].queue != [] && Mine(r, m.streams[r].queue[0]) && m' == Stepped(c, p, m, r)
    ensures |m'.streams| == c.u.streams && LogMatches(c, p, m')
  {
    hide Exec, Prefix, Mem, Spliced, From;
    var s := m.streams[r];
    Accounts(c, p, s);
    forall k: nat | k < c.u.streams ensures From(c.u, m'.log, p, k) == m'.streams[k].sent {
      if s.queue[0].SendC? {
        FromNext(c.u, m.log, Write(p, TreeC, s.queue[0].job, s.queue[0].pos, s.diskC), p, k);
      } else if s.queue[0].SendR? {
        FromNext(c.u, m.log, Write(p, TreeR, s.queue[0].job, s.queue[0].pos, s.diskR), p, k);
      }
    }
  }

  lemma ResultsAfter(c: Config, p: nat, m: Machine, m': Machine, r: nat)
    requires c.u.Ok() && c.layers > 0 && r < c.u.streams && ResultsMatch(c, m)
    requires m.streams[r].queue != [] && m' == Stepped(c, p, m, r)
    ensures ResultsMatch(c, m')
  {
    hide Exec, Prefix, Mem, Spliced, Slice;
    var s := m.streams[r];
    Accounts(c, p, s);
    match s.queue[0]
    case StashC =>
      if !c.treeROnly { SplicedAt(c.u, m.resultsC, r, Prefix(s.diskC, c.GroupSize())); }
    case StashR(out) => SplicedAt(c.u, m.resultsR, r, Prefix(Mem(s.contents, out), c.GroupSize()));
    case _ =>
  }

  lemma LocksAfter(c: Config, p: nat, m: Machine, m': Machine, r: nat)
    requires c.u.Ok() && c.layers > 0 && |m.streams| == c.u.streams && r < c.u.streams && LockOk(c, m)
    requires m.streams[r].queue != [] && Guarded(m.streams[r].queue) && m' == Stepped(c, p, m, r)
    ensures |m'.streams| == c.u.streams && LockOk(c, m')
    ensures IsStash(m.streams[r].queue[0]) ==> m.lock == ByStream(r)
  {
    hide Exec, Prefix, Mem, Spliced, Guarded;
    Accounts(c, p, m.streams[r]);
    LockAfter(r, m.streams[r].queue);
  }

  /** Main result: whichever stream's next operation runs, it reads what it should, and everything the
    * streams and what they share keep true stays true; the results are not touched but under the lock.
    */
  lemma SteppedOk(c: Config, p: nat, m: Machine, views: seq<View>, lost: nat, r: nat)
    requires MachineOk(c, p, m, views, lost) && r < c.u.streams && m.streams[r].queue != []
    ensures Reads(c, p, r, m.streams[r], m.streams[r].queue[0])
    ensures MachineOk(c, p, Stepped(c, p, m, r), views, lost)
    ensures
      var m' := Stepped(c, p, m, r);
      m.lock != ByStream(r) ==> m'.resultsC == m.resultsC && m'.resultsR == m.resultsR && m'.lock == m.lock
  {
    hide Exec, Prefix, Mem, Spliced, Guarded, InState, RunOps, Safe, PairOk, From, Slice, Reads;
    var s, m' := m.streams[r], Stepped(c, p, m, r);
    assert StreamOk(c, p, r, s, views[r], lost);
    ExecOk(c, p, r, s, views[r], lost);
    LogAfter(c, p, m, m', r);
    ResultsAfter(c, p, m, m', r);
    LocksAfter(c, p, m, m', r);
    LockAfter(r, s.queue);
    SteppedStreams(c, p, m, r);
    OthersOk(c, p, m, m', views, lost, r);
  }

  lemma SteppedStreams(c: Config, p: nat, m: Machine, r: nat)
    requires c.u.Ok() && c.layers > 0 && r < |m.streams| && m.streams[r].queue != []
    ensures Stepped(c, p, m, r).streams == m.streams[r := Exec(c, p, m.streams[r])]
  {
    hide Exec, Prefix, Mem, Spliced;
  }

  lemma OthersOk(c: Config, p: nat, m: Machine, m': Machine, views: seq<View>, lost: nat, r: nat)
    requires StreamsOk(c, p, m, views, lost) && r < c.u.streams && m.streams[r].queue != []
    requires m'.streams == m.streams[r := Exec(c, p, m.streams[r])]
    requires StreamOk(c, p, r, Exec(c, p, m.streams[r]), views[r], lost)
    ensures StreamsOk(c, p, m', views, lost)
  {
    hide StreamOk, Exec;
  }
}
