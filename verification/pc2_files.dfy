/** What PC2 writes to the tree files: every stream's columns and groups, and the CPU's top. */
module Pc2Files {
  import opened RingMath
  import opened TreeRows
  import opened Pc2Tree
  import opened Pc2Blocks

  /** The tree of buffers that a stream's scheduler reduces. */
  function StreamTree(u: Setup, f: seq<int> -> int, leaf: int -> seq<int>): Tree<seq<int>> {
    Tree(u.arity, u.height, leaf, (blocks: seq<seq<int>>) => if u.Ok() then HashPtrs(u, f, blocks) else [])
  }

  ghost predicate LeavesOk(u: Setup, f: seq<int> -> int, rows: seq<seq<int>>, r: nat, leaf: int -> seq<int>)
    requires RowsOk(u, rows) && r < u.streams
  {
    forall n: nat :: n < Groups(u, 1) ==> BlockOk(u, f, rows, r, 1, n, leaf(n))
  }

  /** Whatever buffer the scheduler hands on holds its node's group of every sector. */
  lemma {:induction false} StreamBlocks(u: Setup, f: seq<int> -> int, rows: seq<seq<int>>, r: nat,
                                        leaf: int -> seq<int>, l: nat, n: nat)
    requires RowsOk(u, rows) && r < u.streams && LeavesOk(u, f, rows, r, leaf)
    requires 1 <= l <= u.height + 1 && n < Groups(u, l)
    ensures BlockOk(u, f, rows, r, l, n, Merkle(StreamTree(u, f, leaf), l, n))
    decreases l
  {
    hide BlockOk, Merkle, Row, Pow, Groups, HashPtrs;
    var t := StreamTree(u, f, leaf);
    MerkleUp(t, l, n);
    if l > 1 {
      var blocks := Below(t, l, n);
      ChildrenInside(u, l, n);
      forall p: nat | p < u.arity ensures BlockOk(u, f, rows, r, l - 1, u.arity * n + p, blocks[p]) {
        StreamBlocks(u, f, rows, r, leaf, l - 1, u.arity * n + p);
      }
      HashPtrsRight(u, f, rows, r, l, n, blocks);
    }
  }

  function Below<D>(t: Tree<D>, l: nat, n: int): (r: seq<D>)
    requires l > 1
    ensures |r| == t.arity
  {
    seq(t.arity, i requires 0 <= i < t.arity => Merkle(t, l - 1, t.arity * n + i))
  }

  lemma MerkleUp<D>(t: Tree<D>, l: nat, n: int)
    requires l > 0
    ensures l == 1 ==> Merkle(t, l, n) == t.leaf(n)
    ensures l > 1 ==> Merkle(t, l, n) == t.hash(Below(t, l, n))
    ensures l > 1 ==> forall i :: 0 <= i < t.arity ==> Below(t, l, n)[i] == Merkle(t, l - 1, t.arity * n + i)
  {
  }

  lemma ChildrenInside(u: Setup, l: nat, n: nat)
    requires 1 < l <= u.height + 1 && n < Groups(u, l)
    ensures 0 <= u.arity * n && u.arity * n + u.arity <= Groups(u, l - 1)
  {
    MulUpTo(u.arity, n + 1, Groups(u, l));
    assert u.arity * (n + 1) == u.arity * n + u.arity;
  }

  /** Input `i` of the CPU's hash `x`, found among the streams' last buffers. */
  function CpuInput(u: Setup, input: seq<int>, s: nat, x: nat, i: nat): int
    requires u.Ok()
  {
    var e := x * u.arity + i;
    SlotIsMod(e, u.group);
    Element(input, e / u.group * u.group * u.sectors + s * u.group + e % u.group)
  }

  function CpuTree(u: Setup, f: seq<int> -> int, input: seq<int>, s: nat): Tree<int>
    requires u.Ok()
  {
    Tree(u.arity, u.top - 2,
         (x: int) => if x >= 0 && u.Ok() then f(CpuInputs(u, input, s, x)) else 0, f)
  }

  function CpuInputs(u: Setup, input: seq<int>, s: nat, x: nat): (r: seq<int>)
    requires u.Ok()
    ensures |r| == u.arity
  {
    seq(u.arity, i requires 0 <= i < u.arity => CpuInput(u, input, s, x, i))
  }

  /** Stream `r` has left its last buffer in its place. */
  ghost predicate SlotOk(u: Setup, f: seq<int> -> int, rows: seq<seq<int>>, input: seq<int>, r: nat)
    requires RowsOk(u, rows) && r < u.streams
  {
    && 0 <= r * (u.sectors * u.group) <= (r + 1) * (u.sectors * u.group) <= |input|
    && 0 < Groups(u, u.height + 1)
    && BlockOk(u, f, rows, r, u.height + 1, 0, input[r * (u.sectors * u.group)..(r + 1) * (u.sectors * u.group)])
  }

  /** Every stream has left its last buffer, one after the other. */
  ghost predicate Stashed(u: Setup, f: seq<int> -> int, rows: seq<seq<int>>, input: seq<int>)
    requires RowsOk(u, rows)
  {
    |input| == u.streams * (u.sectors * u.group) && forall r: nat :: r < u.streams ==> SlotOk(u, f, rows, input, r)
  }

  lemma LastRow(u: Setup)
    requires u.Ok()
    ensures Groups(u, u.height + 1) == 1 && Pow(u.arity, u.top - 1) == u.streams * u.group
  {
    RowSize(u, u.height + 1);
    assert u.group * (u.streams * 1) == u.streams * u.group;
  }

  lemma CpuInputRight(u: Setup, f: seq<int> -> int, rows: seq<seq<int>>, input: seq<int>, s: nat, x: nat, i: nat)
    requires RowsOk(u, rows) && Stashed(u, f, rows, input) && s < u.sectors && i < u.arity
    requires 0 <= u.arity * x + i < Pow(u.arity, u.top - 1)
    ensures CpuInput(u, input, s, x, i) == Row(f, u.arity, rows[s], u.Levels(), u.height + 1)[u.arity * x + i]
  {
    hide Row, Pow, Groups, HashRow;
    LastRow(u);
    var e := x * u.arity + i;
    assert e == u.arity * x + i;
    DivLess(e, u.group, u.streams);
    SlotIsMod(e, u.group);
    StashPlace(u.group, u.sectors, e / u.group, s, e % u.group);
    InBlock(u.sectors, u.group, s, e % u.group);
    StashElement(u, f, rows, input, s, e / u.group, e % u.group, e,
                 e / u.group * u.group * u.sectors + s * u.group + e % u.group);
  }

  lemma StashPlace(g: nat, sectors: nat, r: nat, s: nat, k: nat)
    ensures r * g * sectors + s * g + k == r * (sectors * g) + (s * g + k)
  {
    assert r * g * sectors == r * (sectors * g);
  }

  lemma StashElement(u: Setup, f: seq<int> -> int, rows: seq<seq<int>>, input: seq<int>, s: nat, r: nat, k: nat,
                     x: nat, at: nat)
    requires RowsOk(u, rows) && Stashed(u, f, rows, input) && s < u.sectors && r < u.streams && k < u.group
    requires x == u.group * r + k && x < Pow(u.arity, u.top - 1) && at == r * (u.sectors * u.group) + (s * u.group + k)
    ensures Element(input, at) == Row(f, u.arity, rows[s], u.Levels(), u.height + 1)[x]
  {
    LastRow(u);
    assert Base(u, r, u.height + 1, 0) == u.group * r by { assert r * 1 == r; }
    BaseFits(u, r, u.height + 1, 0);
    hide Row, Pow, Groups, HashRow, Base;
    assert SlotOk(u, f, rows, input, r);
    var stride := u.sectors * u.group;
    assert (r + 1) * stride == r * stride + stride;
    var block := input[r * stride..(r + 1) * stride];
    FromBlock(u, f, rows, r, u.height + 1, 0, block, s, k);
    InBlock(u.sectors, u.group, s, k);
    assert block[s * u.group + k] == input[at];
  }

  /** The CPU's nodes are the rows above the streams' last one. */
  lemma {:induction false} CpuNodes(u: Setup, f: seq<int> -> int, rows: seq<seq<int>>, input: seq<int>, s: nat,
                                    l: nat, x: nat)
    requires RowsOk(u, rows) && Stashed(u, f, rows, input) && s < u.sectors
    requires 1 <= l <= u.top - 1 && x < Pow(u.arity, u.top - 1 - l)
    ensures Merkle(CpuTree(u, f, input, s), l, x) == Row(f, u.arity, rows[s], u.Levels(), u.height + 1 + l)[x]
    decreases l
  {
    hide Row, Pow, HashRow, Stashed, CpuInput, Merkle;
    var a, t := u.arity, CpuTree(u, f, input, s);
    var below := Row(f, a, rows[s], u.Levels(), u.height + l);
    MerkleUp(t, l, x);
    RowAgain(f, a, rows[s], u.Levels(), u.height + 1 + l);
    HashRowAt(f, a, below, Pow(a, u.top - 1 - l), x);
    PowNext(a, u.top - 1 - l);
    var inputs := if l == 1 then CpuInputs(u, input, s, x) else Below(t, l, x);
    forall i | 0 <= i < a ensures inputs[i] == below[a * x + i] {
      if l == 1 {
        CpuInputRight(u, f, rows, input, s, x, i);
      } else {
        NextInRow(a, Pow(a, u.top - 1 - l), x, i);
        CpuNodes(u, f, rows, input, s, l - 1, a * x + i);
      }
    }
    RunIs(below, a * x, a, inputs);
  }

  lemma NextInRow(a: nat, w: nat, x: nat, i: nat)
    requires x < w && i < a
    ensures 0 <= a * x + i < a * w
  {
    MulGap(a, x, w);
  }
}
