/** How much work is left: no step adds to it, and every poll that is not made to wait takes from it. */
module Pc2Progress {
  import opened RingMath
  import opened Pc2Tree
  import opened Pc2Planner
  import opened Pc2Pair
  import opened Pc2Blocks
  import opened Pc2Streams
  import opened Pc2Polls
  import opened Pc2Machine

  /** What goes on while the host polls: operations of a stream, deliveries by the reader, the CPU's task. */
  datatype Event = Gpu(stream: nat) | Reader(stream: nat) | CpuCopies | CpuHashes

  /** What has happened when a stream is polled next, and whether the disk queue has room then. */
  datatype Turn = Turn(events: seq<Event>, room: bool)

  /** The stages that a stream's item still has before it. */
  function Rank(s: Stream): nat {
    match s.state
    case Idle => 0
    case DataRead => 34
    case DataWait => if s.valid then 32 else 33
    case HashColumn => 31
    case HashColumnLeaves => 20 + |s.queue|
    case HashLeaf => 34
    case HashWait => 1 + |s.queue|
    case Done => 0
  }

  /** The stages that a stream has before it in all. */
  ghost function Left(u: Setup, s: Stream, v: View): int {
    if |v.done| == u.height + 3 then 40 * Remaining(Shape(u), v.done, 1) + Rank(s) else 0
  }

  ghost function Total(u: Setup, streams: seq<Stream>, views: seq<View>): int
    requires |streams| == |views|
  {
    if streams == [] then 0
    else
      var n := |streams| - 1;
      Total(u, streams[..n], views[..n]) + Left(u, streams[n], views[n])
  }

  lemma {:induction false} TotalAfter(u: Setup, streams: seq<Stream>, views: seq<View>, r: nat, s: Stream, v: View)
    requires |streams| == |views| && r < |streams|
    ensures Total(u, streams[r := s], views[r := v])
            == Total(u, streams, views) - Left(u, streams[r], views[r]) + Left(u, s, v)
  {
    hide Left;
    var n := |streams| - 1;
    var streams', views' := streams[r := s], views[r := v];
    if r < n {
      TotalAfter(u, streams[..n], views[..n], r, s, v);
      assert streams'[..n] == streams[..n][r := s] && views'[..n] == views[..n][r := v];
    } else {
      assert streams'[..n] == streams[..n] && views'[..n] == views[..n];
    }
  }

  lemma LeftNat(c: Config, p: nat, r: nat, s: Stream, v: View, lost: nat)
    requires StreamOk(c, p, r, s, v, lost)
    ensures |v.done| == c.u.height + 3 && Left(c.u, s, v) >= 0
  {
    hide InState, Safe, RunOps, QueueOk;
    PairArity(Shape(c.u), v, s.c, s.r, s.pool, lost);
    RemainingNat(Shape(c.u), v.done, v.pending, 1);
  }

  lemma {:induction false} TotalNat(u: Setup, streams: seq<Stream>, views: seq<View>)
    requires |streams| == |views| && forall r: nat :: r < |streams| ==> Left(u, streams[r], views[r]) >= 0
    ensures Total(u, streams, views) >= 0
  {
    hide Left;
    if streams != [] {
      var n := |streams| - 1;
      TotalNat(u, streams[..n], views[..n]);
    }
  }

  /** A poll finds its stream ready for the next stage. */
  predicate CanGo(s: Stream, room: bool, lock: Lock) {
    match s.state
    case Idle => true
    case DataRead => true
    case DataWait => s.valid && room
    case HashColumn => room
    case HashColumnLeaves => s.awake && room
    case HashLeaf => room && (!s.last || lock == Free)
    case HashWait => s.awake
    case Done => false
  }

  /** Taking an item off the stacks brings a reduction nearer to its end. */
  lemma TakingLess(u: Setup, s: Stream, s': Stream, v: View, l: nat, bufC: int, bufR: int)
    requires |v.done| == u.height + 3 && 1 <= l <= u.height + 1 && s.state == Idle
    requires s'.state == DataRead || s'.state == HashLeaf
    ensures Left(u, s', ViewAfter(Shape(u), v, l, bufC, bufR)) < Left(u, s, v)
  {
    RemainingAfter(Shape(u), v.done, l, 1);
    hide Remaining;
  }

  /** The streams after a change of one of them; `less` says that some of its work is done. */
  ghost predicate Drops(u: Setup, streams: seq<Stream>, views: seq<View>, streams': seq<Stream>, views': seq<View>,
                        r: nat, less: bool)
  {
    && |streams| == |views| && r < |streams| && |streams'| == |streams| && |views'| == |views|
    && streams' == streams[r := streams'[r]] && views' == views[r := views'[r]]
    && Left(u, streams'[r], views'[r]) <= Left(u, streams[r], views[r]) - (if less then 1 else 0)
  }

  lemma NoDrop(u: Setup, streams: seq<Stream>, views: seq<View>, r: nat)
    requires |streams| == |views| && r < |streams|
    ensures Drops(u, streams, views, streams, views, r, false)
  {
  }

  lemma DropsSizes(u: Setup, streams: seq<Stream>, views: seq<View>, streams': seq<Stream>, views': seq<View>, r: nat,
                   less: bool)
    requires Drops(u, streams, views, streams', views', r, less)
    ensures |streams'| == |views'| == |streams| == |views| && r < |streams|
  {
  }

  lemma DropsTotal(u: Setup, streams: seq<Stream>, views: seq<View>, streams': seq<Stream>, views': seq<View>, r: nat,
                   less: bool)
    requires Drops(u, streams, views, streams', views', r, less)
    ensures Total(u, streams', views') <= Total(u, streams, views) - (if less then 1 else 0)
  {
    hide Left;
    TotalAfter(u, streams, views, r, streams'[r], views'[r]);
  }

  /** The GPU's next operation is one stage less. */
  lemma ExecLess(c: Config, p: nat, r: nat, s: Stream, v: View)
    requires c.u.Ok() && c.layers > 0 && QueueOk(r, s) && s.queue != []
    ensures Left(c.u, Exec(c, p, s), v) <= Left(c.u, s, v)
    ensures |v.done| == c.u.height + 3 ==> Left(c.u, Exec(c, p, s), v) < Left(c.u, s, v)
    ensures |Exec(c, p, s).queue| == |s.queue| - 1 && Exec(c, p, s).state == s.state && Exec(c, p, s).valid == s.valid
  {
    HostKeptBy(c, p, s, s.queue[0]);
    hide Do, Remaining, WakesLast, Guarded, Mine;
  }

  /** What an event may change of the streams and the lock. */
  ghost predicate Passes(u: Setup, streams: seq<Stream>, views: seq<View>, lock: Lock, streams': seq<Stream>,
                         views': seq<View>, lock': Lock, e: Event)
    requires |streams| == |views|
  {
    match e
    case Gpu(r) =>
      if r < |streams| && streams[r].queue != [] then
        && Drops(u, streams, views, streams', views', r, true)
        && streams'[r].state == streams[r].state && streams'[r].valid == streams[r].valid
        && |streams'[r].queue| == |streams[r].queue| - 1
        && (lock' == lock || (lock' == Free && lock == ByStream(r)))
      else streams' == streams && views' == views && lock' == lock
    case Reader(r) =>
      && lock' == lock
      && if r < |streams| && streams[r].state == DataWait then
           && Drops(u, streams, views, streams', views', r, false)
           && streams'[r].state == DataWait && streams'[r].valid && streams'[r].queue == streams[r].queue
         else streams' == streams && views' == views
    case CpuCopies => streams' == streams && views' == views && lock' == if lock == ByCpu then Free else lock
    case CpuHashes => streams' == streams && views' == views && lock' == lock
  }

  /** Nothing has added work, moved a stream to another state, or taken the lock. */
  ghost predicate Calm(u: Setup, streams: seq<Stream>, views: seq<View>, lock: Lock, streams': seq<Stream>,
                       views': seq<View>, lock': Lock)
  {
    && |streams'| == |views'| == |streams| == |views| && Total(u, streams', views') <= Total(u, streams, views)
    && (forall k: nat :: k < |streams| ==> streams'[k].state == streams[k].state)
    && (lock' == lock || (lock' == Free && lock != ByHost))
  }

  /** No event does. */
  lemma PassesOn(u: Setup, streams: seq<Stream>, views: seq<View>, lock: Lock, streams': seq<Stream>,
                 views': seq<View>, lock': Lock, e: Event)
    requires |streams| == |views| && Passes(u, streams, views, lock, streams', views', lock', e)
    ensures Calm(u, streams, views, lock, streams', views', lock')
  {
    hide Total, Left;
    if e.Gpu? && e.stream < |streams| && streams[e.stream].queue != [] {
      DropsTotal(u, streams, views, streams', views', e.stream, true);
    } else if e.Reader? && e.stream < |streams| && streams[e.stream].state == DataWait {
      DropsTotal(u, streams, views, streams', views', e.stream, false);
    }
  }

  lemma CalmOn(u: Setup, streams0: seq<Stream>, views0: seq<View>, lock0: Lock, streams: seq<Stream>,
               views: seq<View>, lock: Lock, streams': seq<Stream>, views': seq<View>, lock': Lock)
    requires Calm(u, streams0, views0, lock0, streams, views, lock)
    requires Calm(u, streams, views, lock, streams', views', lock')
    ensures Calm(u, streams0, views0, lock0, streams', views', lock')
  {
    hide Total;
  }

  lemma CalmStart(u: Setup, streams: seq<Stream>, views: seq<View>, lock: Lock)
    requires |streams| == |views|
    ensures Calm(u, streams, views, lock, streams, views, lock)
  {
  }

  /** All that a stream can wait for: the CPU's copy, the reader, and as many operations as a queue has. */
  predicate Eager(events: seq<Event>, r: nat) {
    && |events| == 12 && events[0] == CpuCopies && events[1] == Reader(r)
    && forall i :: 2 <= i < 12 ==> events[i] == Gpu(r)
  }

  ghost predicate EagerEnv(u: Setup, env: (nat, nat) -> Turn) {
    forall round: nat, r: nat :: r < u.streams ==> env(round, r).room && Eager(env(round, r).events, r)
  }

  lemma EagerExists(u: Setup)
    ensures EagerEnv(u, (round: nat, r: nat) => Turn([CpuCopies, Reader(r)] + seq(10, _ => Gpu(r)), true))
  {
  }

  /** After the first `i` of a stream's eager events. */
  ghost predicate Serving(u: Setup, streams0: seq<Stream>, views0: seq<View>, lock0: Lock, streams: seq<Stream>,
                          views: seq<View>, lock: Lock, r: nat, i: nat)
    requires |streams0| == |views0| == |streams| == |views| && r < |streams|
  {
    && Total(u, streams, views) <= Total(u, streams0, views0) && |streams0[r].queue| <= 10 && i <= 12
    && (lock0.ByStream? && lock0.stream != r ==> lock == lock0) && (lock == lock0 || lock == Free)
    && (i >= 1 ==> lock != ByCpu)
    && (i >= 2 && streams[r].state == DataWait ==> streams[r].valid)
    && (i <= 2 ==> |streams[r].queue| == |streams0[r].queue|)
    && (i >= 2 ==> |streams[r].queue| <= 12 - i)
    && (i >= 3 && streams0[r].queue != [] ==> Total(u, streams, views) < Total(u, streams0, views0))
  }

  lemma ServingStarts(u: Setup, streams: seq<Stream>, views: seq<View>, lock: Lock, r: nat)
    requires |streams| == |views| && r < |streams| && |streams[r].queue| <= 10
    ensures Serving(u, streams, views, lock, streams, views, lock, r, 0)
  {
  }

  lemma ServesAll(u: Setup, streams0: seq<Stream>, views0: seq<View>, lock0: Lock, streams: seq<Stream>,
                  views: seq<View>, lock: Lock, r: nat)
    requires |streams0| == |views0| == |streams| == |views| && r < |streams|
    requires Serving(u, streams0, views0, lock0, streams, views, lock, r, 12)
    requires streams[r].queue == [] ==> streams[r].awake
    ensures Served(u, streams0, views0, lock0, streams, views, lock, r)
  {
    hide Total;
  }

  lemma ServesOn(u: Setup, streams0: seq<Stream>, views0: seq<View>, lock0: Lock, streams: seq<Stream>,
                 views: seq<View>, lock: Lock, streams': seq<Stream>, views': seq<View>, lock': Lock, r: nat, i: nat,
                 e: Event)
    requires |streams0| == |views0| == |streams| == |views| == |streams'| == |views'| && r < |streams|
    requires Serving(u, streams0, views0, lock0, streams, views, lock, r, i) && i < 12
    requires Passes(u, streams, views, lock, streams', views', lock', e)
    requires e == if i == 0 then CpuCopies else if i == 1 then Reader(r) else Gpu(r)
    ensures Serving(u, streams0, views0, lock0, streams', views', lock', r, i + 1)
  {
    PassesOn(u, streams, views, lock, streams', views', lock', e);
    hide Total, Left;
    if e.Gpu? && streams[r].queue != [] {
      DropsTotal(u, streams, views, streams', views', r, true);
    }
  }

  /** A stream has got all that it can wait for, but the lock. */
  ghost predicate Served(u: Setup, streams0: seq<Stream>, views0: seq<View>, lock0: Lock, streams: seq<Stream>,
                         views: seq<View>, lock: Lock, r: nat)
    requires |streams0| == |views0| == |streams| == |views| && r < |streams|
  {
    && Total(u, streams, views) <= Total(u, streams0, views0)
    && (streams0[r].queue != [] ==> Total(u, streams, views) < Total(u, streams0, views0))
    && (lock0.ByStream? && lock0.stream != r ==> lock == lock0) && (lock == lock0 || lock == Free) && lock != ByCpu
    && (streams[r].state == DataWait ==> streams[r].valid) && streams[r].queue == [] && streams[r].awake
  }

  /** A stream's turn: what it got, and its poll. Only another stream that holds the lock can keep it waiting. */
  lemma TurnOver(u: Setup, streams1: seq<Stream>, views1: seq<View>, lock1: Lock, streams2: seq<Stream>,
                 views2: seq<View>, lock2: Lock, streams: seq<Stream>, views: seq<View>, lock: Lock, r: nat)
    requires |streams1| == |views1| == |streams2| == |views2| && r < |streams1|
    requires Served(u, streams1, views1, lock1, streams2, views2, lock2, r)
    requires Drops(u, streams2, views2, streams, views, r, CanGo(streams2[r], true, lock2))
    requires lock == lock2 || (lock2 == Free && lock == ByStream(r))
    requires lock1 != ByHost
    ensures |streams| == |views| && Total(u, streams, views) <= Total(u, streams1, views1) && lock != ByHost
    ensures streams2[r].queue == []
    ensures streams1[r].queue != [] ==> Total(u, streams, views) < Total(u, streams1, views1)
    ensures lock1.ByStream? && lock1.stream != r ==> lock == lock1
    ensures streams2[r].state != Done ==>
      Total(u, streams, views) < Total(u, streams1, views1) || (lock2.ByStream? && lock == lock2)
  {
    hide Total, Left;
    DropsTotal(u, streams2, views2, streams, views, r, CanGo(streams2[r], true, lock2));
  }

  lemma PolledDone(u: Setup, streams: seq<Stream>, views: seq<View>, streams': seq<Stream>, views': seq<View>, r: nat,
                   less: bool)
    requires Drops(u, streams, views, streams', views', r, less)
    requires streams[r].state == Done ==> streams'[r].state == Done
    ensures forall k: nat :: k < |streams| && streams[k].state == Done ==> streams'[k].state == Done
  {
  }

  /** As many rounds as all streams have stages. */
  ghost function Enough(u: Setup): nat
    requires u.Ok()
  {
    MulNat(u.streams, 40 * Nodes(Shape(u), 1));
    u.streams * (40 * Nodes(Shape(u), 1))
  }

  lemma {:induction false} TotalAtStart(u: Setup, streams: seq<Stream>, views: seq<View>)
    requires u.Ok() && |streams| == |views|
    requires forall r: nat :: r < |streams| ==> streams[r].state == Idle && views[r] == NewView(Shape(u))
    ensures Total(u, streams, views) == |streams| * (40 * Nodes(Shape(u), 1))
  {
    if streams != [] {
      var n := |streams| - 1;
      TotalAtStart(u, streams[..n], views[..n]);
      NothingDone(Shape(u), NewView(Shape(u)).done, 1);
      hide Nodes, Remaining;
      Distribute(40 * Nodes(Shape(u), 1), n);
    }
  }
}
