/** The last levels of each tree, hashed by the CPU for all sectors at once. */
module Pc2Cpu {
  import opened RingMath
  import opened TreeRows
  import opened Pc2Tree
  import opened Pc2Planner
  import opened Pc2Blocks
  import opened Pc2Files
  import opened Pc2Places
  import opened Pc2Writes
  import opened Pc2Streams

  /** One hash for every sector, over the children's elements of that sector. */
  function SectorHashes(u: Setup, f: seq<int> -> int, blocks: seq<seq<int>>): (r: seq<int>)
    ensures |r| == u.sectors
  {
    seq(u.sectors, s requires 0 <= s < u.sectors =>
      f(seq(|blocks|, i requires 0 <= i < |blocks| => Element(blocks[i], s))))
  }

  /** The tree that the CPU's scheduler reduces: its buffers have an element for every sector. */
  function AllSectors(u: Setup, f: seq<int> -> int, input: seq<int>): Tree<seq<int>>
    requires u.Ok()
  {
    Tree(u.arity, u.top - 2,
         (x: int) => if x >= 0 && u.Ok() then
             seq(u.sectors, s requires 0 <= s < u.sectors && u.Ok() => f(CpuInputs(u, input, s, x)))
           else seq(u.sectors, s => 0),
         (blocks: seq<seq<int>>) => SectorHashes(u, f, blocks))
  }

  /** Sector by sector, it is the sectors' trees. */
  lemma {:induction false} SectorApart(u: Setup, f: seq<int> -> int, input: seq<int>, s: nat, l: nat, x: nat)
    requires u.Ok() && s < u.sectors && l >= 1
    ensures |Merkle(AllSectors(u, f, input), l, x)| == u.sectors
    ensures Merkle(AllSectors(u, f, input), l, x)[s] == Merkle(CpuTree(u, f, input, s), l, x)
    decreases l
  {
    hide Merkle, CpuInputs;
    var t, t' := AllSectors(u, f, input), CpuTree(u, f, input, s);
    MerkleUp(t, l, x);
    MerkleUp(t', l, x);
    if l > 1 {
      var blocks, below := Below(t, l, x), Below(t', l, x);
      forall i: nat | i < u.arity ensures Element(blocks[i], s) == below[i] {
        MulUpTo(u.arity, 0, x);
        SectorApart(u, f, input, s, l - 1, u.arity * x + i);
      }
      assert seq(|blocks|, i requires 0 <= i < |blocks| => Element(blocks[i], s)) == below;
    }
  }

  lemma TopBlock(c: Config, p: nat, kind: Kind, input: seq<int>, l: nat, x: nat)
    requires c.u.Ok() && c.layers > 0 && l >= 1
    ensures Block(c.u, c.f, RunOf(c, p, kind, input), Top(l, x)) == Merkle(AllSectors(c.u, c.f, input), l, x)
  {
    hide Merkle;
    SectorApart(c.u, c.f, input, 0, l, x);
    forall s: nat | s < c.u.sectors
      ensures Merkle(AllSectors(c.u, c.f, input), l, x)[s] == Merkle(CpuTree(c.u, c.f, input, s), l, x)
    {
      SectorApart(c.u, c.f, input, s, l, x);
    }
  }

  /** The write that a job leads to, once the CPU's input is known. */
  function WriteFrom(c: Config, p: nat, kind: Kind, input: seq<int>, j: Job): Write
    requires c.u.Ok() && c.layers > 0
  {
    Write(p, kind, j, if PlacesHave(c.u, c.PlacesOf(kind), j) then Pos(c.u, c.PlacesOf(kind), j) else 0,
          Block(c.u, c.f, RunOf(c, p, kind, input), j))
  }

  /** The CPU's writes, in the order of its hashes. */
  function CpuWrites(c: Config, p: nat, kind: Kind, input: seq<int>, trace: seq<NodeId>): (ws: seq<Write>)
    requires c.u.Ok() && c.layers > 0
    ensures |ws| == |trace|
  {
    seq(|trace|, i requires 0 <= i < |trace| =>
      WriteFrom(c, p, kind, input, Top(trace[i].layer, if trace[i].node >= 0 then trace[i].node else 0)))
  }

  /** Write each node of each sector, as the hash callback does. */
  method WriteNodes(c: Config, p: nat, kind: Kind, input: seq<int>, results: seq<(NodeId, seq<int>)>,
                    ghost trace: seq<NodeId>) returns (writes: seq<Write>)
    requires c.Ok() && AllNodes(AllSectors(c.u, c.f, input), trace)
    requires ResultsOk(AllSectors(c.u, c.f, input), trace, results)
    ensures writes == CpuWrites(c, p, kind, input, trace)
  {
    hide Merkle, PlacesOk, Block, RunOf, AllSectors, AllNodes, CpuWrites;
    var places := c.PlacesOf(kind);
    writes := [];
    for i := 0 to |results|
      invariant writes == CpuWrites(c, p, kind, input, trace)[..i]
    {
      var id, digest := results[i].0, results[i].1;
      TopPlace(c, p, kind, input, AllSectors(c.u, c.f, input), trace, i);
      var offset := places.top.Address(id.layer - 1, id.node) + places.finalOffset;
      writes := writes + [Write(p, kind, Top(id.layer, id.node), offset, digest)];
    }
  }

  /** Reduce the results of the streams to the root of every sector, and write all nodes. */
  method HashCpu(c: Config, p: nat, kind: Kind, input: seq<int>) returns (roots: seq<int>, writes: seq<Write>,
                                                                       ghost trace: seq<NodeId>)
    requires c.Ok()
    ensures AllNodes(AllSectors(c.u, c.f, input), trace) && writes == CpuWrites(c, p, kind, input, trace)
    ensures RootsOk(c, input, roots)
  {
    hide Merkle, PlacesOk, Block, RunOf, Nodes, Consistent, AllNodes, CpuWrites, RootsOk, ResultsOk;
    var bufs := new Buffers<seq<int>>();
    var scheduler := new Scheduler(AllSectors(c.u, c.f, input), bufs);
    var root := scheduler.Run();
    trace := scheduler.trace;
    writes := WriteNodes(c, p, kind, input, scheduler.results, trace);
    roots := bufs.contents[root];
    RootApart(c, input);
  }

  /** The root of each sector's tree. */
  ghost predicate RootsOk(c: Config, input: seq<int>, roots: seq<int>)
    requires c.u.Ok()
  {
    && |roots| == c.u.sectors
    && forall s: nat :: s < c.u.sectors ==> roots[s] == Merkle(CpuTree(c.u, c.f, input, s), c.u.top - 1, 0)
  }

  lemma RootApart(c: Config, input: seq<int>)
    requires c.u.Ok()
    ensures RootsOk(c, input, Merkle(AllSectors(c.u, c.f, input), c.u.top - 1, 0))
  {
    hide Merkle;
    SectorApart(c.u, c.f, input, 0, c.u.top - 1, 0);
    forall s: nat | s < c.u.sectors
      ensures Merkle(AllSectors(c.u, c.f, input), c.u.top - 1, 0)[s]
              == Merkle(CpuTree(c.u, c.f, input, s), c.u.top - 1, 0)
    {
      SectorApart(c.u, c.f, input, s, c.u.top - 1, 0);
    }
  }

  /** A node of the trace has its place in the CPU's table. */
  lemma TopPlace(c: Config, p: nat, kind: Kind, input: seq<int>, t: Tree<seq<int>>, trace: seq<NodeId>, i: nat)
    requires c.Ok() && t == AllSectors(c.u, c.f, input) && AllNodes(t, trace) && i < |trace|
    ensures 1 <= trace[i].layer <= c.u.top - 1 && 0 <= trace[i].node < Pow(c.u.arity, c.u.top - 1 - trace[i].layer)
    ensures
      var job := Top(trace[i].layer, trace[i].node);
      var places := c.PlacesOf(kind);
      && PlacesHave(c.u, places, job)
      && CpuWrites(c, p, kind, input, trace)[i]
         == Write(p, kind, job, places.top.Address(trace[i].layer - 1, trace[i].node) + places.finalOffset,
                  Merkle(t, trace[i].layer, trace[i].node))
  {
    hide Merkle, RunOf, Block;
    assert trace[i] in trace;
    var l, x := trace[i].layer, trace[i].node;
    TopBlock(c, p, kind, input, l, x);
    HavePlaces(c.u, c.PlacesOf(kind), Top(l, x));
  }
}
