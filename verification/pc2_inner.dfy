/** The stage that hashes an inner node of both trees and, at the root, copies the results out. */
module Pc2Inner {
  import opened Pc2Tree
  import opened Pc2Planner
  import opened Pc2Pair
  import opened Pc2Blocks
  import opened Pc2Places
  import opened Pc2Writes
  import opened Pc2Streams
  import opened Pc2Stages
  import opened Pc2Plans
  import opened Pc2Polls
  import opened Pc2Steps
  import opened Pc2Leaves

  /** Both hashes read their children's digests, though tree R's buffer may be one of tree C's inputs. */
  lemma InnerBuffers(c: Config, p: nat, r: nat, s: Stream, v: View)
    requires c.Ok() && Flying(c, p, r, s, v) && !s.workC.isLeaf
    ensures InputsHold(c, p, TreeR, r, s.workR, AfterC(c, s.contents, s.workC))
    ensures
      var contents := AfterR(c, AfterC(c, s.contents, s.workC), s.workR);
      && BothBut(c, p, r, v, contents, {})
      && (!c.treeROnly ==> Prefix(Mem(contents, s.workC.buf), c.GroupSize()) == Node(c, p, TreeC, r, s.workC.idx))
      && Prefix(Mem(contents, s.workR.buf), c.GroupSize()) == Node(c, p, TreeR, r, s.workC.idx)
  {
    hide BothBut, Distinct, Groups, Kept, Prefix, Node, HashPtrs, InputsHold, Mems, Mem, Holds, PlacesOk;
    var id, wc, wr := s.workC.idx, s.workC, s.workR;
    FlyingNode(c, p, r, s, v);
    var first := AfterC(c, s.contents, wc);
    if !c.treeROnly {
      HashedRight(c, p, TreeC, r, wc, s.contents);
      FirstWrite(c, p, r, v, wc, wr, s.contents, Node(c, p, TreeC, r, id));
      KeptHolds(s.contents, wc.buf, Node(c, p, TreeC, r, id));
    }
    HashedRight(c, p, TreeR, r, wr, first);
    SecondWrite(c, p, r, v, wc, wr, first, Node(c, p, TreeR, r, id));
    NodeSize(c, p, TreeR, r, id);
    HeldPrefix(AfterR(c, first, wr), wr.buf, Node(c, p, TreeR, r, id));
    if !c.treeROnly {
      NodeSize(c, p, TreeC, r, id);
      HeldPrefix(AfterR(c, first, wr), wc.buf, Node(c, p, TreeC, r, id));
    }
  }

  lemma SendFields(c: Config, p: nat, s: Stream, wc: WorkItem, wr: WorkItem, last: bool, job: Job, posC: int, posR: int)
    ensures
      var e := SendEnd(c, p, s, wc, wr, last, job, posC, posR);
      var outC := Prefix(Mem(s.contents, wc.buf), c.GroupSize());
      var outR := Prefix(Mem(s.contents, wr.buf), c.GroupSize());
      && e.contents == s.contents && e.state == s.state && e.last == s.last && e.columnD == s.columnD
      && (last ==> e.stashR == outR && (!c.treeROnly ==> e.stashC == outC))
      && e.sent == s.sent + (if c.treeROnly then [] else [Write(p, TreeC, job, posC, outC)])
                   + (if WriteR(c, wr) then [Write(p, TreeR, job, posR, outR)] else [])
  {
    hide Prefix, Mem, WriteR;
  }

  function InnerEnd(c: Config, p: nat, s: Stream, job: Job, posC: int, posR: int): Stream
    requires c.u.Ok()
  {
    SendEnd(c, p, s.(contents := AfterR(c, AfterC(c, s.contents, s.workC), s.workR)), s.workC, s.workR, s.last, job,
            posC, posR)
  }

  lemma InnerEndOk(c: Config, p: nat, r: nat, s: Stream, e: Stream, v: View, job: Job, posC: int, posR: int)
    requires c.Ok() && s.state == HashLeaf && InState(c, p, r, s, v) && r < c.u.streams
    requires |s.columnD| == c.layers * c.LayerSize()
    requires s.workC.idx.node >= 0 ==> job == Part(r, s.workC.idx.layer, s.workC.idx.node)
    requires !c.treeROnly ==> PlacesHave(c.u, c.c, job) && posC == Pos(c.u, c.c, job)
    requires WriteR(c, s.workR) ==> PlacesHave(c.u, c.r, job) && posR == Pos(c.u, c.r, job)
    requires e == InnerEnd(c, p, s, job, posC, posR).(state := HashWait)
    ensures InState(c, p, r, e, v) && |e.columnD| == c.layers * c.LayerSize()
  {
    hide Flying, Pos, Before, PlacesHave, PlacesOk, TheWrite, BothBut, Expected, Node, SendEnd, AfterR, AfterC, Prefix;
    hide Mem;
    FlyingNode(c, p, r, s, v);
    var id := s.workC.idx;
    InnerBuffers(c, p, r, s, v);
    SendFields(c, p, s.(contents := AfterR(c, AfterC(c, s.contents, s.workC), s.workR)), s.workC, s.workR, s.last, job,
               posC, posR);
    FlyingTrace(c, p, r, s, v);
    ExpectedNext(c, p, r, v);
    PartWanted(c, p, TreeC, r, id);
    if WriteR(c, s.workR) {
      PartWanted(c, p, TreeR, r, id);
    }
    InnerWrites(c, p, r, id);
  }

  lemma InnerWrites(c: Config, p: nat, r: nat, id: NodeId)
    requires c.u.Ok() && c.layers > 0 && id.layer > 1 && id.node >= 0
    ensures WritesOf(c, p, r, id)
            == (if c.treeROnly then [] else [TheWrite(c, p, TreeC, Part(r, id.layer, id.node))])
             + (if id.layer > c.discards then [TheWrite(c, p, TreeR, Part(r, id.layer, id.node))] else [])
  {
    hide TheWrite;
  }

  lemma InnerShape(c: Config, r: nat, wc: WorkItem, wr: WorkItem, last: bool, job: Job, posC: int, posR: int)
    requires !job.Top? && job.stream == r
    ensures
      var q := InnerPlan(c, wc, wr, last, job, posC, posR);
      && WakesLast(q) && Guarded(q) && (forall op :: op in q ==> Mine(r, op)) && (Unlock in q <==> last) && |q| <= 10
      && (forall op :: op in q && IsStash(op) ==> last)
  {
    hide WakesLast, Guarded, Then, WriteR;
    WakeShape(r);
    var full, write := !c.treeROnly, WriteR(c, wr);
    var o7 := Then(write, SendR(job, posR), [Wake]);
    ThenShape(r, write, SendR(job, posR), [Wake]);
    var o6 := Then(full, SendC(job, posC), o7);
    ThenShape(r, full, SendC(job, posC), o7);
    var o5 := Then(last, Unlock, o6);
    ThenShape(r, last, Unlock, o6);
    var o4 := Then(write, CopyR(wr.buf), o5);
    ThenShape(r, write, CopyR(wr.buf), o5);
    var o3 := Then(last, StashR(wr.buf), o4);
    ThenShape(r, last, StashR(wr.buf), o4);
    var o2 := Then(last && full, StashC, o3);
    ThenShape(r, last && full, StashC, o3);
    var o1 := Then(full, CopyC(wc.buf), o2);
    ThenShape(r, full, CopyC(wc.buf), o2);
    var o0 := Then(true, HashR(wr.buf, wr.inputs), o1);
    ThenShape(r, true, HashR(wr.buf, wr.inputs), o1);
    ThenShape(r, full, HashC(wc.buf, wc.inputs), o0);
    NoLock(c, r, wc, wr, last, job, posC, posR);
  }

  /** Without the last item there is nothing to copy to the results. */
  lemma NoLock(c: Config, r: nat, wc: WorkItem, wr: WorkItem, last: bool, job: Job, posC: int, posR: int)
    requires var q := InnerPlan(c, wc, wr, last, job, posC, posR); Guarded(q) && (Unlock in q <==> last)
    ensures forall op :: op in InnerPlan(c, wc, wr, last, job, posC, posR) && IsStash(op) ==> last
  {
    hide InnerPlan, Guarded;
    if !last { NoStash(InnerPlan(c, wc, wr, last, job, posC, posR)); }
  }

  lemma InnerState(c: Config, p: nat, s: Stream, job: Job, posC: int, posR: int, s': Stream)
    requires c.u.Ok() && c.layers > 0 && s' == s.(state := s'.state, awake := s'.awake)
    ensures InnerEnd(c, p, s', job, posC, posR) == InnerEnd(c, p, s, job, posC, posR).(state := s'.state)
  {
    hide Prefix, Mem, WriteR, AfterR, AfterC;
  }

  lemma InnerReads(c: Config, p: nat, r: nat, s: Stream, v: View)
    requires c.Ok() && s.state == HashLeaf && InState(c, p, r, s, v)
    ensures !c.treeROnly ==> InputsHold(c, p, TreeC, r, s.workC, s.contents)
    ensures InputsHold(c, p, TreeR, r, s.workR, AfterC(c, s.contents, s.workC))
  {
    hide BothBut, InputsHold, Distinct, AfterC, Before, Groups;
    InnerBuffers(c, p, r, s, v);
  }

  /** The stage of an inner node is asked for. */
  lemma InnerStage(c: Config, p: nat, r: nat, s: Stream, s': Stream, v: View, lost: nat, job: Job, posC: int, posR: int)
    requires StreamOk(c, p, r, s, v, lost) && s.state == HashLeaf && s.awake && r < c.u.streams
    requires s.workC.idx.node >= 0 ==> job == Part(r, s.workC.idx.layer, s.workC.idx.node)
    requires !c.treeROnly ==> PlacesHave(c.u, c.c, job) && posC == Pos(c.u, c.c, job)
    requires WriteR(c, s.workR) ==> PlacesHave(c.u, c.r, job) && posR == Pos(c.u, c.r, job)
    requires s' == s.(state := HashWait, awake := false,
                      queue := InnerPlan(c, s.workC, s.workR, s.last, job, posC, posR))
    ensures StreamOk(c, p, r, s', v, lost)
    ensures Unlock in s'.queue <==> s.last
  {
    hide PairOk, Pos, RunOps, Safe, InnerPlan, WakesLast, Guarded, PlacesHave, PlacesOk, SendEnd, Mine, InState, WriteR;
    hide AfterC, AfterR, InputsHold;
    Quiet(c, p, r, s, v, lost);
    InnerReads(c, p, r, s, v);
    InnerJob(c, p, r, s, v);
    var plan := InnerPlan(c, s.workC, s.workR, s.last, job, posC, posR);
    var host := s'.(queue := []);
    InnerRuns(c, p, r, host, s.last, job, posC, posR);
    InnerState(c, p, s, job, posC, posR, host);
    var e := InnerEnd(c, p, host, job, posC, posR);
    InnerEndOk(c, p, r, s, e, v, job, posC, posR);
    InnerShape(c, r, s.workC, s.workR, s.last, job, posC, posR);
    Asked(c, p, r, s, s', plan, e, v, lost);
  }

  lemma InnerJob(c: Config, p: nat, r: nat, s: Stream, v: View)
    requires c.u.Ok() && c.layers > 0 && s.state == HashLeaf && InState(c, p, r, s, v)
    ensures s.workC.idx.node >= 0 && 1 < s.workC.idx.layer <= c.u.height + 1
    ensures s.workR.idx == s.workC.idx && s.workC.idx.node < Groups(c.u, s.workC.idx.layer)
    ensures s.last <==> s.workC.idx == NodeId(c.u.height + 1, 0)
  {
    hide Flying, Before, Groups;
    FlyingNode(c, p, r, s, v);
  }
}
