/** From what each stream and the CPU have sent to what is in the log: each intended write exactly once. */
module Pc2Logs {
  import opened RingMath
  import opened Pc2Tree
  import opened Pc2Planner
  import opened Pc2Blocks
  import opened Pc2Places
  import opened Pc2Writes
  import opened Pc2Streams
  import opened Pc2Cpu

  /** Who sends a job: a stream, or the CPU. */
  function Sender(u: Setup, j: Job): nat {
    match j
    case Columns(r, _) => r
    case Part(r, _, _) => r
    case Top(_, _) => u.streams
  }

  /** The writes of one partition that one sender has sent, in order. */
  function From(u: Setup, log: seq<Write>, p: nat, k: nat): seq<Write> {
    if log == [] then []
    else
      var w := log[|log| - 1];
      From(u, log[..|log| - 1], p, k) + if w.part == p && Sender(u, w.job) == k then [w] else []
  }

  lemma FromNext(u: Setup, log: seq<Write>, w: Write, p: nat, k: nat)
    ensures From(u, log + [w], p, k) == From(u, log, p, k) + if w.part == p && Sender(u, w.job) == k then [w] else []
  {
    assert (log + [w])[..|log|] == log;
  }

  lemma LastApart(log: seq<Write>, ws: seq<Write>)
    requires ws != []
    ensures
      var n := |ws| - 1;
      log + ws == (log + ws[..n]) + [ws[n]] && ws == ws[..n] + [ws[n]]
  {
  }

  lemma {:induction false} FromAll(u: Setup, log: seq<Write>, ws: seq<Write>, p: nat, k: nat)
    requires forall w :: w in ws ==> w.part == p && Sender(u, w.job) == k
    ensures From(u, log + ws, p, k) == From(u, log, p, k) + ws
    decreases |ws|
  {
    hide From, Sender;
    if ws == [] {
      assert log + ws == log;
    } else {
      var n := |ws| - 1;
      FromAll(u, log, ws[..n], p, k);
      LastApart(log, ws);
      LastApart(From(u, log, p, k), ws);
      FromNext(u, log + ws[..n], ws[n], p, k);
    }
  }

  lemma {:induction false} FromNone(u: Setup, log: seq<Write>, ws: seq<Write>, p: nat, k: nat)
    requires forall w :: w in ws ==> w.part != p || Sender(u, w.job) != k
    ensures From(u, log + ws, p, k) == From(u, log, p, k)
    decreases |ws|
  {
    hide From, Sender;
    if ws == [] {
      assert log + ws == log;
    } else {
      var n := |ws| - 1;
      FromNone(u, log, ws[..n], p, k);
      LastApart(log, ws);
      FromNext(u, log + ws[..n], ws[n], p, k);
    }
  }

  lemma {:induction false} FromHas(u: Setup, log: seq<Write>, p: nat, k: nat, w: Write)
    requires w in log && w.part == p && Sender(u, w.job) == k
    ensures w in From(u, log, p, k)
  {
    var n := |log| - 1;
    if log[n] != w {
      FromHas(u, log[..n], p, k, w);
    }
  }

  lemma {:induction false} TimesFrom(u: Setup, log: seq<Write>, p: nat, kind: Kind, j: Job)
    ensures Times(log, p, kind, j) == Times(From(u, log, p, Sender(u, j)), p, kind, j)
  {
    if log != [] {
      var n := |log| - 1;
      TimesFrom(u, log[..n], p, kind, j);
      var before, w := From(u, log[..n], p, Sender(u, j)), log[n];
      if w.part == p && Sender(u, w.job) == Sender(u, j) {
        TimesNext(before, w, p, kind, j);
      } else {
        assert before + [] == before;
      }
    }
  }

  lemma TimesNext(log: seq<Write>, w: Write, p: nat, kind: Kind, j: Job)
    ensures Times(log + [w], p, kind, j)
            == Times(log, p, kind, j) + if w.part == p && w.kind == kind && w.job == j then 1 else 0
  {
    assert (log + [w])[..|log|] == log;
  }

  lemma {:induction false} TimesBoth(a: seq<Write>, b: seq<Write>, p: nat, kind: Kind, j: Job)
    ensures Times(a + b, p, kind, j) == Times(a, p, kind, j) + Times(b, p, kind, j)
    decreases |b|
  {
    if b == [] {
      assert a + b == a;
    } else {
      var n := |b| - 1;
      TimesBoth(a, b[..n], p, kind, j);
      TimesNext(a + b[..n], b[n], p, kind, j);
      assert a + b == a + b[..n] + [b[n]] && b == b[..n] + [b[n]];
    }
  }

  /** How often a node is taken. */
  function Seen(trace: seq<NodeId>, id: NodeId): nat {
    if trace == [] then 0 else Seen(trace[..|trace| - 1], id) + if trace[|trace| - 1] == id then 1 else 0
  }

  lemma {:induction false} SeenOnce(trace: seq<NodeId>, id: NodeId)
    requires forall i, j :: 0 <= i < j < |trace| ==> trace[i] != trace[j]
    ensures Seen(trace, id) == if id in trace then 1 else 0
  {
    if trace != [] {
      SeenOnce(trace[..|trace| - 1], id);
    }
  }

  /** The node that a stream's job belongs to. */
  function IdOf(j: Job): NodeId {
    match j
    case Columns(_, n) => NodeId(1, n)
    case Part(_, l, n) => NodeId(l, n)
    case Top(l, x) => NodeId(l, x)
  }

  ghost predicate Wanted(c: Config, kind: Kind, j: Job) {
    Valid(c.u, c.PlacesOf(kind).skip, j) && (kind == TreeC ==> !c.treeROnly)
  }

  lemma WritesTimes(c: Config, p: nat, kind: Kind, r: nat, id: NodeId, j: Job)
    requires c.Ok() && Wanted(c, kind, j) && !j.Top? && j.stream == r && id.node >= 0 && id.layer >= 1
    ensures Times(WritesOf(c, p, r, id), p, kind, j) == if IdOf(j) == id then 1 else 0
  {
    var l, n := id.layer, id.node;
    var first := MaybeWrite(c, p, l == 1 && !c.treeROnly, TreeC, Columns(r, n));
    var second := MaybeWrite(c, p, !c.treeROnly, TreeC, Part(r, l, n));
    var third := MaybeWrite(c, p, l > 1 && l > c.discards, TreeR, Part(r, l, n));
    assert WritesOf(c, p, r, id) == first + second + third;
    hide TheWrite, PlacesOk, WritesOf, MaybeWrite, Times, Groups, Pow;
    TimesBoth(first + second, third, p, kind, j);
    TimesBoth(first, second, p, kind, j);
    MaybeTimes(c, p, l == 1 && !c.treeROnly, TreeC, Columns(r, n), kind, j);
    MaybeTimes(c, p, !c.treeROnly, TreeC, Part(r, l, n), kind, j);
    MaybeTimes(c, p, l > 1 && l > c.discards, TreeR, Part(r, l, n), kind, j);
  }

  function MaybeWrite(c: Config, p: nat, asked: bool, kind: Kind, j: Job): seq<Write>
    requires c.u.Ok() && c.layers > 0
  {
    if asked then [TheWrite(c, p, kind, j)] else []
  }

  lemma MaybeTimes(c: Config, p: nat, asked: bool, kind': Kind, j': Job, kind: Kind, j: Job)
    requires c.u.Ok() && c.layers > 0
    ensures Times(MaybeWrite(c, p, asked, kind', j'), p, kind, j) == if asked && kind == kind' && j == j' then 1 else 0
  {
    hide Block, RunOf, Pos;
    OneTime(TheWrite(c, p, kind', j'), p, kind, j);
  }

  lemma OneTime(w: Write, p: nat, kind: Kind, j: Job)
    ensures Times([w], p, kind, j) == if w.part == p && w.kind == kind && w.job == j then 1 else 0
    ensures Times([], p, kind, j) == 0
  {
    TimesNext([], w, p, kind, j);
    assert [] + [w] == [w];
  }

  ghost predicate InTree(trace: seq<NodeId>) { forall id :: id in trace ==> id.node >= 0 && id.layer >= 1 }

  /** A job's write is sent as often as its node is taken. */
  lemma {:induction false} ExpectedTimes(c: Config, p: nat, kind: Kind, r: nat, trace: seq<NodeId>, j: Job)
    requires c.Ok() && Wanted(c, kind, j) && !j.Top? && j.stream == r && InTree(trace)
    ensures Times(Expected(c, p, r, trace), p, kind, j) == Seen(trace, IdOf(j))
  {
    if trace != [] {
      var n := |trace| - 1;
      hide WritesOf, Wanted;
      ExpectedTimes(c, p, kind, r, trace[..n], j);
      assert trace[n] in trace;
      WritesTimes(c, p, kind, r, trace[n], j);
      TimesBoth(Expected(c, p, r, trace[..n]), WritesOf(c, p, r, trace[n]), p, kind, j);
    }
  }

  lemma {:induction false} CpuTimes(c: Config, p: nat, kind: Kind, input: seq<int>, trace: seq<NodeId>, kind': Kind,
                                    l: nat, x: nat)
    requires c.u.Ok() && c.layers > 0 && InTree(trace)
    ensures Times(CpuWrites(c, p, kind, input, trace), p, kind', Top(l, x))
            == if kind == kind' then Seen(trace, NodeId(l, x)) else 0
  {
    hide RunOf, Block;
    if trace != [] {
      var n := |trace| - 1;
      CpuTimes(c, p, kind, input, trace[..n], kind', l, x);
      var ws := CpuWrites(c, p, kind, input, trace);
      assert ws[..n] == CpuWrites(c, p, kind, input, trace[..n]);
      assert trace[n] in trace;
    }
  }
}
