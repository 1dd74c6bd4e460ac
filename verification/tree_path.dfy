/** Inclusion paths: what each path element should hold, and why folding it up gives the root. */
module TreePath {
  import opened RingMath
  import opened TreeRows

  /** One level of a path: the position among its siblings, and the siblings. */
  datatype PathElement = PathElement(index: nat, hashes: seq<int>)

  function Without(group: seq<int>, i: nat): (r: seq<int>)
    requires i < |group|
    ensures |r| == |group| - 1
  {
    group[..i] + group[i + 1..]
  }

  /** The verifier's fold: put the node among its siblings and hash them. */
  function Fold(f: seq<int> -> int, leaf: int, path: seq<PathElement>): int
    requires forall l :: 0 <= l < |path| ==> path[l].index <= |path[l].hashes|
  {
    if path == [] then leaf
    else
      var last := path[|path| - 1];
      f(last.hashes[..last.index] + [Fold(f, leaf, path[..|path| - 1])] + last.hashes[last.index..])
  }

  /** Which node of row `l` is over the challenge. */
  function NodeOf(a: nat, challenge: nat, l: nat): (r: nat)
    requires a > 0
  {
    SlotIsMod(challenge, Pow(a, l));
    challenge / Pow(a, l)
  }

  /** The siblings at row `l`: the run of `a` nodes the challenge's node is in. */
  function Group(f: seq<int> -> int, a: nat, leaves: seq<int>, k: nat, challenge: nat, l: nat): (r: seq<int>)
    requires a > 0 && |leaves| == Pow(a, k) && l < k && challenge < Pow(a, k)
    ensures |r| == a
  {
    var g := NodeOf(a, challenge, l + 1);
    GroupFits(a, k, challenge, l);
    Row(f, a, leaves, k, l)[a * g..a * g + a]
  }

  lemma NodeInRow(a: nat, k: nat, challenge: nat, l: nat)
    requires a > 0 && l <= k && challenge < Pow(a, k)
    ensures NodeOf(a, challenge, l) < Pow(a, k - l)
  {
    PowAdd(a, k - l, l);
    DivLess(challenge, Pow(a, l), Pow(a, k - l));
  }

  /** A node's parent and its place below it. */
  lemma NodeUp(a: nat, challenge: nat, l: nat)
    requires a > 0
    ensures NodeOf(a, challenge, l + 1) == NodeOf(a, challenge, l) / a
    ensures NodeOf(a, challenge, l) == a * NodeOf(a, challenge, l + 1) + NodeOf(a, challenge, l) % a
  {
    var w := Pow(a, l);
    var x, r := challenge / w, challenge % w;
    SlotIsMod(challenge, w);
    SlotIsMod(x, a);
    var g, i := x / a, x % a;
    DigitJoin(challenge, w, a, x, r, g, i);
  }

  lemma DigitJoin(n: nat, w: nat, a: nat, x: nat, r: nat, g: nat, i: nat)
    requires w > 0 && a > 0 && n == w * x + r && r < w && x == a * g + i && i < a
    ensures a * w > 0 && n / (a * w) == g
  {
    Regroup(w, a, g, i);
    DigitsFit(w, a, i, r);
    EuclidUnique(n, a * w, g, w * i + r);
  }

  lemma Regroup(w: nat, a: nat, g: nat, i: nat)
    ensures w * (a * g + i) == (a * w) * g + w * i
  {
    assert w * (a * g + i) == w * (a * g) + w * i;
    assert w * (a * g) == (w * a) * g;
  }

  lemma DigitsFit(w: nat, a: nat, i: nat, r: nat)
    requires r < w && i < a
    ensures 0 <= w * i + r < a * w
  {
    MulGap(w, i, a);
    assert w * a == a * w;
  }

  lemma GroupFits(a: nat, k: nat, challenge: nat, l: nat)
    requires a > 0 && l < k && challenge < Pow(a, k)
    ensures a * NodeOf(a, challenge, l + 1) + a <= Pow(a, k - l)
  {
    NodeInRow(a, k, challenge, l + 1);
    var g, n := NodeOf(a, challenge, l + 1), Pow(a, k - l - 1);
    MulUpTo(a, g + 1, n);
    assert a * (g + 1) == a * g + a;
  }

  /** A path element is right when it has the node's place and its siblings. */
  ghost predicate ElementOk(f: seq<int> -> int, a: nat, leaves: seq<int>, k: nat, challenge: nat, l: nat,
                            e: PathElement)
    requires a > 0 && |leaves| == Pow(a, k) && l < k && challenge < Pow(a, k)
  {
    && e.index == NodeOf(a, challenge, l) % a < a
    && e.hashes == Without(Group(f, a, leaves, k, challenge, l), e.index)
  }

  /** Folding the right elements gives the node of each row over the challenge, and so the root. */
  lemma {:induction false} FoldClimbs(f: seq<int> -> int, a: nat, leaves: seq<int>, k: nat, challenge: nat,
                                      path: seq<PathElement>)
    requires a > 0 && |leaves| == Pow(a, k) && |path| <= k && challenge < Pow(a, k)
    requires forall l :: 0 <= l < |path| ==> ElementOk(f, a, leaves, k, challenge, l, path[l])
    ensures forall l :: 0 <= l < |path| ==> path[l].index <= |path[l].hashes|
    ensures NodeOf(a, challenge, |path|) < Pow(a, k - |path|)
    ensures Fold(f, leaves[challenge], path) == Row(f, a, leaves, k, |path|)[NodeOf(a, challenge, |path|)]
    decreases |path|
  {
    NodeInRow(a, k, challenge, |path|);
    hide Row, HashRow, Pow, NodeOf;
    if path == [] {
      ZeroUp(f, a, leaves, k, challenge);
    } else {
      var l := |path| - 1;
      FoldClimbs(f, a, leaves, k, challenge, path[..l]);
      FoldStep(f, a, leaves, k, challenge, l, path[l], Fold(f, leaves[challenge], path[..l]));
    }
  }

  lemma ZeroUp(f: seq<int> -> int, a: nat, leaves: seq<int>, k: nat, challenge: nat)
    requires a > 0 && |leaves| == Pow(a, k)
    ensures NodeOf(a, challenge, 0) == challenge && Row(f, a, leaves, k, 0) == leaves
  {
  }

  lemma FoldStep(f: seq<int> -> int, a: nat, leaves: seq<int>, k: nat, challenge: nat, l: nat, e: PathElement,
                 node: int)
    requires a > 0 && |leaves| == Pow(a, k) && l < k && challenge < Pow(a, k)
    requires ElementOk(f, a, leaves, k, challenge, l, e)
    requires NodeOf(a, challenge, l) < Pow(a, k - l) && node == Row(f, a, leaves, k, l)[NodeOf(a, challenge, l)]
    ensures NodeOf(a, challenge, l + 1) < Pow(a, k - l - 1) && e.index <= |e.hashes|
    ensures f(e.hashes[..e.index] + [node] + e.hashes[e.index..])
            == Row(f, a, leaves, k, l + 1)[NodeOf(a, challenge, l + 1)]
  {
    hide Row, HashRow, Pow, NodeOf, Group;
    ParentOfGroup(f, a, leaves, k, challenge, l);
    NodeInGroup(f, a, leaves, k, challenge, l);
    var group := Group(f, a, leaves, k, challenge, l);
    assert e.hashes[..e.index] + [node] + e.hashes[e.index..] == group;
  }

  lemma NodeInGroup(f: seq<int> -> int, a: nat, leaves: seq<int>, k: nat, challenge: nat, l: nat)
    requires a > 0 && |leaves| == Pow(a, k) && l < k && challenge < Pow(a, k)
    requires NodeOf(a, challenge, l) < Pow(a, k - l)
    ensures NodeOf(a, challenge, l) % a < a
    ensures Group(f, a, leaves, k, challenge, l)[NodeOf(a, challenge, l) % a]
            == Row(f, a, leaves, k, l)[NodeOf(a, challenge, l)]
  {
    hide Row, HashRow, Pow, NodeOf;
    NodeUp(a, challenge, l);
    GroupFits(a, k, challenge, l);
    SlotIsMod(NodeOf(a, challenge, l), a);
    var row, p, i := Row(f, a, leaves, k, l), a * NodeOf(a, challenge, l + 1), NodeOf(a, challenge, l) % a;
    assert row[p..p + a][i] == row[p + i];
  }

  /** The hash of a group is the node over it. */
  lemma ParentOfGroup(f: seq<int> -> int, a: nat, leaves: seq<int>, k: nat, challenge: nat, l: nat)
    requires a > 0 && |leaves| == Pow(a, k) && l < k && challenge < Pow(a, k)
    ensures NodeOf(a, challenge, l + 1) < Pow(a, k - l - 1)
    ensures f(Group(f, a, leaves, k, challenge, l)) == Row(f, a, leaves, k, l + 1)[NodeOf(a, challenge, l + 1)]
  {
    hide Row, HashRow, Pow, NodeOf;
    NodeInRow(a, k, challenge, l + 1);
    RowAgain(f, a, leaves, k, l + 1);
    HashRowAt(f, a, Row(f, a, leaves, k, l), Pow(a, k - l - 1), NodeOf(a, challenge, l + 1));
  }
}
