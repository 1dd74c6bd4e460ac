/** C1's output files: all proofs at once, or trees and nodes apart and combined afterwards. */
module C1Files {
  import opened RingMath
  import opened C1Proofs

  datatype Trailer = Trailer(commR: int, commD: int, replicaId: int, seed: int, ticket: int)

  /** What one output is made of: its challenges by index, and which proofs it holds. */
  datatype Job = Job(p: Params, challenge: int -> Challenge, trailer: Trailer, doTree: bool, doNode: bool)

  /** Every challenge has proofs of the parameters' shape. */
  ghost predicate Ready(w: Job) {
    w.p.layers >= 1 && w.p.config <= 1 && w.p.dLevels > 0 && w.p.arity > 0 && w.p.levels > 0
    && forall n: int :: Fits(w.p, w.challenge(n))
  }

  function Part(w: Job, n: int): seq<int>
    requires Fits(w.p, w.challenge(n))
  {
    var c := w.challenge(n);
    if w.doNode then (if w.doTree then TreePart(w.p, c) else []) + NodePart(w.p, c) else TreePart(w.p, c)
  }

  function Tail(w: Job): seq<int> {
    (if w.doTree then Digest(w.trailer.commR) + Digest(w.trailer.commD) else [])
    + (if w.doNode then Digest(w.trailer.replicaId) + Digest(w.trailer.seed) + Digest(w.trailer.ticket) else [])
  }

  /** The file from partition `i` on, and from a challenge of it on. */
  function FromPartition(w: Job, i: nat): seq<int>
    requires Ready(w)
    decreases w.p.partitions - i, w.p.challenges + 1
  {
    if i >= w.p.partitions then Tail(w) else U64(w.p.challenges) + FromChallenge(w, i, 0)
  }

  function FromChallenge(w: Job, i: nat, j: nat): seq<int>
    requires Ready(w) && i < w.p.partitions
    decreases w.p.partitions - i, w.p.challenges - j
  {
    if j >= w.p.challenges then FromPartition(w, i + 1)
    else Part(w, Index(w, i, j)) + FromChallenge(w, i, j + 1)
  }

  function Index(w: Job, i: nat, j: nat): int { j + i * w.p.challenges }

  function FileBytes(w: Job): seq<int>
    requires Ready(w)
  {
    U64(w.p.partitions) + FromPartition(w, 0)
  }

  /** WriteProofs */
  method WriteProofs(w: Job) returns (out: seq<int>)
    requires Ready(w)
    ensures out == FileBytes(w)
  {
    hide Le, Part, Tail;
    out := U64(w.p.partitions);
    for i := 0 to w.p.partitions
      invariant out + FromPartition(w, i) == FileBytes(w)
    {
      out := Then(out, U64(w.p.challenges), FromChallenge(w, i, 0));
      for j := 0 to w.p.challenges
        invariant out + FromChallenge(w, i, j) == FileBytes(w)
      {
        var part := WriteChallenge(w, Index(w, i, j));
        out := Then(out, part, FromChallenge(w, i, j + 1));
      }
    }
    var tail := WriteTail(w);
    out := out + tail;
  }

  /** Put a piece behind what is written; what is still to come is kept in sight. */
  method Then(out: seq<int>, piece: seq<int>, ghost rest: seq<int>) returns (out': seq<int>)
    ensures out' == out + piece && out' + rest == out + (piece + rest)
  {
    out' := out + piece;
    assert out' + rest == out + (piece + rest);
  }

  method WriteChallenge(w: Job, n: int) returns (out: seq<int>)
    requires Ready(w)
    ensures out == Part(w, n)
  {
    hide TreePart, NodePart;
    var c := w.challenge(n);
    if w.doNode {
      out := [];
      if w.doTree {
        out := WriteTreeProof(w.p, c);
      }
      var node := WriteNodeProof(w.p, c);
      out := out + node;
    } else {
      out := WriteTreeProof(w.p, c);
    }
  }

  method WriteTail(w: Job) returns (out: seq<int>)
    ensures out == Tail(w)
  {
    hide Le;
    out := [];
    if w.doTree {
      out := Digest(w.trailer.commR) + Digest(w.trailer.commD);
    }
    if w.doNode {
      out := out + (Digest(w.trailer.replicaId) + Digest(w.trailer.seed) + Digest(w.trailer.ticket));
    }
  }

  /** The declared size of an output. */
  function ProofSize(p: Params, doTree: bool, doNode: bool): int {
    p.partitions * 8 + 8
    + (if doTree then TreePartSize(p) * (p.partitions * p.challenges) + 2 * 32 else 0)
    + (if doNode then NodePartSize(p) * (p.partitions * p.challenges) + 3 * 32 else 0)
  }

  function PartSize(w: Job): int {
    if w.doNode then (if w.doTree then TreePartSize(w.p) else 0) + NodePartSize(w.p) else TreePartSize(w.p)
  }

  function TailSize(w: Job): int { (if w.doTree then 64 else 0) + (if w.doNode then 96 else 0) }

  lemma PartIs(w: Job, n: int)
    requires Ready(w)
    ensures |Part(w, n)| == PartSize(w)
  {
    hide TreePart, NodePart, TreePartSize, NodePartSize;
    PartSizes(w.p, w.challenge(n));
  }

  lemma {:induction false} RestSize(w: Job, i: nat, j: nat)
    requires Ready(w) && i < w.p.partitions && j <= w.p.challenges
    ensures |FromChallenge(w, i, j)|
            == (w.p.challenges - j) * PartSize(w) + (w.p.partitions - i - 1) * (8 + w.p.challenges * PartSize(w))
               + TailSize(w)
    decreases w.p.partitions - i, w.p.challenges - j
  {
    hide Part, PartSize, Le;
    if j < w.p.challenges {
      PartIs(w, Index(w, i, j));
      RestSize(w, i, j + 1);
      OneLess(w.p.challenges - j, PartSize(w));
    } else if i + 1 < w.p.partitions {
      RestSize(w, i + 1, 0);
      OneLess(w.p.partitions - i - 1, 8 + w.p.challenges * PartSize(w));
    }
  }

  lemma OneLess(n: nat, each: int)
    requires n > 0
    ensures n * each == (n - 1) * each + each
  {
  }

  lemma TailIs(w: Job)
    ensures |Tail(w)| == TailSize(w)
  {
    hide Le;
  }

  lemma FileSize(w: Job)
    requires Ready(w)
    ensures |FileBytes(w)| == 8 + w.p.partitions * (8 + w.p.challenges * PartSize(w)) + TailSize(w)
  {
    hide Le, PartSize, FromChallenge, TailSize, Tail;
    TailIs(w);
    if w.p.partitions > 0 {
      RestSize(w, 0, 0);
      OneLess(w.p.partitions, 8 + w.p.challenges * PartSize(w));
    }
  }

  /** Each writer ends exactly at the declared size, for trees, nodes or both; asked for neither, it
    * would still write the trees.
    */
  lemma EndsAtProofSize(w: Job)
    requires Ready(w) && w.p.partitions > 0 && w.p.challenges > 0
    ensures |FileBytes(w)| == ProofSize(w.p, w.doTree, w.doNode) <==> w.doTree || w.doNode
  {
    hide TreePartSize, NodePartSize, Le, FileBytes;
    FileSize(w);
    TreePartPositive(w);
    var t, n, k := TreePartSize(w.p), NodePartSize(w.p), w.p.partitions * w.p.challenges;
    SizesAdd(w.p.partitions, w.p.challenges, PartSize(w));
    SizesJoin(t, n, k);
    Positive(w.p.partitions, w.p.challenges);
    Positive(t, k);
  }

  lemma TreePartPositive(w: Job)
    requires Ready(w)
    ensures TreePartSize(w.p) > 0
  {
    hide TreePart, NodePart, NodePartSize;
    MulNat(32 * (2 - 1) + 8 + 8, w.p.dLevels);
    MulNat(32 * (w.p.arity - 1) + 8 + 8, w.p.levels);
  }

  lemma Positive(a: int, b: int)
    requires a > 0 && b > 0
    ensures a * b > 0
  {
  }

  lemma SizesAdd(p: nat, c: nat, s: int)
    ensures p * (8 + c * s) == p * 8 + s * (p * c)
  {
    assert p * (c * s) == (p * c) * s;
  }

  lemma SizesJoin(t: int, n: int, k: int)
    ensures (t + n) * k == t * k + n * k && (0 + n) * k == n * k
  {
  }

  /** CombineProofs: copy alternately from the tree output and the node output. */
  method CombineProofs(p: Params, treeFile: seq<int>, nodeFile: seq<int>, ghost full: Job) returns (out: seq<int>)
    requires Ready(full) && full.doTree && full.doNode && full.p == p
    requires treeFile == FileBytes(full.(doNode := false)) && nodeFile == FileBytes(full.(doTree := false))
    ensures out == FileBytes(full)
  {
    hide Le, TreePart, NodePart, TreePartSize, NodePartSize, Part;
    ghost var trees, nodes := full.(doNode := false), full.(doTree := false);
    var treeSize, nodeSize := TreePartSize(p), NodePartSize(p);
    var treeAt, nodeAt := 8, 8;
    out := U64(p.partitions);
    for i := 0 to p.partitions
      invariant 0 <= treeAt <= |treeFile| && treeFile[treeAt..] == FromPartition(trees, i)
      invariant 0 <= nodeAt <= |nodeFile| && nodeFile[nodeAt..] == FromPartition(nodes, i)
      invariant out + FromPartition(full, i) == FileBytes(full)
    {
      out := Then(out, U64(p.challenges), FromChallenge(full, i, 0));
      treeAt := Skip(treeFile, treeAt, 8, U64(p.challenges), FromChallenge(trees, i, 0));
      nodeAt := Skip(nodeFile, nodeAt, 8, U64(p.challenges), FromChallenge(nodes, i, 0));
      for j := 0 to p.challenges
        invariant 0 <= treeAt <= |treeFile| && treeFile[treeAt..] == FromChallenge(trees, i, j)
        invariant 0 <= nodeAt <= |nodeFile| && nodeFile[nodeAt..] == FromChallenge(nodes, i, j)
        invariant out + FromChallenge(full, i, j) == FileBytes(full)
      {
        ghost var n := Index(full, i, j);
        PartsOf(full, n);
        var tree, node;
        tree, treeAt := Copy(treeFile, treeAt, treeSize, Part(trees, n), FromChallenge(trees, i, j + 1));
        node, nodeAt := Copy(nodeFile, nodeAt, nodeSize, Part(nodes, n), FromChallenge(nodes, i, j + 1));
        out := Then(out, tree + node, FromChallenge(full, i, j + 1));
      }
    }
    TailsOf(full);
    out := out + treeFile[treeAt..treeAt + 64] + nodeFile[nodeAt..nodeAt + 96];
  }

  /** The next bytes of a file, and the place behind them. */
  method Copy(file: seq<int>, at: nat, size: int, ghost piece: seq<int>, ghost rest: seq<int>)
    returns (bytes: seq<int>, at': nat)
    requires at <= |file| && file[at..] == piece + rest && size == |piece|
    ensures bytes == piece && at' <= |file| && file[at'..] == rest
  {
    assert file[at..][..size] == piece && file[at..][size..] == rest;
    bytes, at' := file[at..at + size], at + size;
  }

  method Skip(file: seq<int>, at: nat, size: int, ghost piece: seq<int>, ghost rest: seq<int>) returns (at': nat)
    requires at <= |file| && file[at..] == piece + rest && size == |piece|
    ensures at' <= |file| && file[at'..] == rest
  {
    var _, next := Copy(file, at, size, piece, rest);
    at' := next;
  }

  lemma PartsOf(w: Job, n: int)
    requires Ready(w) && w.doTree && w.doNode
    ensures Ready(w.(doNode := false)) && Ready(w.(doTree := false))
    ensures |Part(w.(doNode := false), n)| == TreePartSize(w.p) && |Part(w.(doTree := false), n)| == NodePartSize(w.p)
    ensures Part(w, n) == Part(w.(doNode := false), n) + Part(w.(doTree := false), n)
  {
    hide TreePart, NodePart, TreePartSize, NodePartSize;
    PartSizes(w.p, w.challenge(n));
  }

  lemma TailsOf(w: Job)
    requires w.doTree && w.doNode
    ensures |Tail(w.(doNode := false))| == 64 && |Tail(w.(doTree := false))| == 96
    ensures Tail(w) == Tail(w.(doNode := false)) + Tail(w.(doTree := false))
  {
    hide Le;
  }
}
