/** Inclusion paths of C1, read from tree files and, for tree R, partly rebuilt from leaves. */
module TreeProofs {
  import opened RingMath
  import opened TreeRows
  import opened TreeChunks
  import opened TreePath

  /** Pow(a, m) files, each with the rows from one on over its share of the leaves. */
  ghost predicate FilesHold(f: seq<int> -> int, a: nat, leaves: seq<int>, k: nat, m: nat, from: nat,
                            files: seq<seq<int>>)
  {
    && m <= k && |leaves| == Pow(a, k) && |files| == Pow(a, m)
    && forall c :: 0 <= c < Pow(a, m) ==> FileHolds(f, a, leaves, k, m, from, c, files[c])
  }

  ghost predicate FileHolds(f: seq<int> -> int, a: nat, leaves: seq<int>, k: nat, m: nat, from: nat, c: nat,
                            file: seq<int>)
    requires m <= k && |leaves| == Pow(a, k)
  {
    && c * Pow(a, k - m) + Pow(a, k - m) <= |leaves|
    && HasRow(file, 0, Stored(f, a, ChunkOf(leaves, Pow(a, k - m), c), k - m, from, k - m))
  }

  lemma {:induction false} StoredHasRow(f: seq<int> -> int, a: nat, leaves: seq<int>, k: nat, from: nat, last: nat,
                                        l: nat)
    requires |leaves| == Pow(a, k) && from <= l <= last <= k
    ensures HasRow(Stored(f, a, leaves, k, from, last), Offset(a, k, from, l), Row(f, a, leaves, k, l))
    decreases last
  {
    hide Row, Stored, Offset, Pow;
    StoredOneMore(f, a, leaves, k, from, last);
    if l < last {
      StoredHasRow(f, a, leaves, k, from, last - 1, l);
      var pos, row := Offset(a, k, from, l), Row(f, a, leaves, k, l);
      assert Stored(f, a, leaves, k, from, last)[pos..pos + |row|]
          == Stored(f, a, leaves, k, from, last - 1)[pos..pos + |row|];
    } else if last > 0 {
      LastAtEnd(f, a, leaves, k, from, last);
    }
  }

  lemma LastAtEnd(f: seq<int> -> int, a: nat, leaves: seq<int>, k: nat, from: nat, last: nat)
    requires |leaves| == Pow(a, k) && 0 < last <= k
    ensures |Stored(f, a, leaves, k, from, last - 1)| == Offset(a, k, from, last)
  {
    StoredSize(f, a, leaves, k, from, last - 1);
  }

  /** The node over the challenge, split into the file's part and the node within the file. */
  lemma LocalNode(a: nat, k: nat, m: nat, challenge: nat, l: nat)
    requires a > 0 && m <= k && l <= k - m && challenge < Pow(a, k)
    ensures Pow(a, k - m) > 0
    ensures
      var c, local := challenge / Pow(a, k - m), challenge % Pow(a, k - m);
      && 0 <= c < Pow(a, m) && local < Pow(a, k - m)
      && NodeOf(a, challenge, l) == c * Pow(a, k - m - l) + NodeOf(a, local, l)
  {
    var n, w := Pow(a, k - m), Pow(a, l);
    PowAdd(a, m, k - m);
    DivLess(challenge, n, Pow(a, m));
    SlotIsMod(challenge, n);
    PowAdd(a, k - m - l, l);
    SplitDivision(challenge, challenge / n, challenge % n, Pow(a, k - m - l), w);
  }

  lemma SplitDivision(x: nat, c: nat, local: nat, v: nat, w: nat)
    requires w > 0 && x == c * (v * w) + local
    ensures x / w == c * v + local / w
  {
    SlotIsMod(local, w);
    assert c * (v * w) == w * (c * v);
    assert w * (c * v + local / w) == w * (c * v) + w * (local / w);
    EuclidUnique(x, w, c * v + local / w, local % w);
  }

  /** A file's group of siblings is the tree's. */
  lemma LocalGroup(f: seq<int> -> int, a: nat, leaves: seq<int>, k: nat, m: nat, challenge: nat, l: nat)
    requires a > 0 && |leaves| == Pow(a, k) && m <= k && l < k - m && challenge < Pow(a, k)
    ensures Pow(a, k - m) > 0
    ensures
      var c, local := challenge / Pow(a, k - m), challenge % Pow(a, k - m);
      && 0 <= c < Pow(a, m) && local < Pow(a, k - m) && c * Pow(a, k - m) + Pow(a, k - m) <= |leaves|
      && Group(f, a, leaves, k, challenge, l)
         == Group(f, a, ChunkOf(leaves, Pow(a, k - m), c), k - m, local, l)
  {
    hide Row, Pow, NodeOf, Group, ChunkOf;
    LocalFirst(a, k, m, challenge, l);
    var n, w := Pow(a, k - m), Pow(a, k - m - l);
    var c, local := challenge / n, challenge % n;
    ChunkFits(a, k, m, c, 0);
    ChunkFits(a, k, m, c, l);
    ChunkRowAt(f, a, leaves, k, m, c, l, c * w);
    GroupSlice(f, a, leaves, k, m, challenge, l, c, local, c * w);
  }

  lemma ChunkRowAt(f: seq<int> -> int, a: nat, leaves: seq<int>, k: nat, m: nat, c: nat, l: nat, q: nat)
    requires a > 0 && |leaves| == Pow(a, k) && m <= k && l <= k - m && c < Pow(a, m)
    requires c * Pow(a, k - m) + Pow(a, k - m) <= |leaves| && q == c * Pow(a, k - m - l)
    ensures q + Pow(a, k - m - l) <= Pow(a, k - l)
    ensures Row(f, a, ChunkOf(leaves, Pow(a, k - m), c), k - m, l) == Row(f, a, leaves, k, l)[q..q + Pow(a, k - m - l)]
  {
    hide Row, Pow;
    RowOfChunk(f, a, leaves, k, m, c, l, ChunkOf(leaves, Pow(a, k - m), c), c * Pow(a, k - m), q);
  }

  lemma LocalFirst(a: nat, k: nat, m: nat, challenge: nat, l: nat)
    requires a > 0 && m <= k && l < k - m && challenge < Pow(a, k)
    ensures Pow(a, k - m) > 0
    ensures
      var c, local := challenge / Pow(a, k - m), challenge % Pow(a, k - m);
      && 0 <= c < Pow(a, m) && local < Pow(a, k - m)
      && a * NodeOf(a, challenge, l + 1) == c * Pow(a, k - m - l) + a * NodeOf(a, local, l + 1)
  {
    hide NodeOf;
    LocalNode(a, k, m, challenge, l + 1);
    var c, local := challenge / Pow(a, k - m), challenge % Pow(a, k - m);
    TimesSwap(a, c, Pow(a, k - m - l - 1));
    PowNext(a, k - m - l - 1);
    hide Pow;
    Distribute(a, c * Pow(a, k - m - l - 1), NodeOf(a, local, l + 1));
  }

  lemma Distribute(a: nat, x: nat, y: nat)
    ensures a * (x + y) == a * x + a * y
  {
  }

  lemma GroupSlice(f: seq<int> -> int, a: nat, leaves: seq<int>, k: nat, m: nat, challenge: nat, l: nat,
                   c: nat, local: nat, q: nat)
    requires a > 0 && |leaves| == Pow(a, k) && m <= k && l < k - m && challenge < Pow(a, k) && local < Pow(a, k - m)
    requires c * Pow(a, k - m) + Pow(a, k - m) <= |leaves| && q + Pow(a, k - m - l) <= Pow(a, k - l)
    requires Row(f, a, ChunkOf(leaves, Pow(a, k - m), c), k - m, l)
             == Row(f, a, leaves, k, l)[q..q + Pow(a, k - m - l)]
    requires a * NodeOf(a, challenge, l + 1) == q + a * NodeOf(a, local, l + 1)
    ensures Group(f, a, leaves, k, challenge, l)
            == Group(f, a, ChunkOf(leaves, Pow(a, k - m), c), k - m, local, l)
  {
    GroupFits(a, k, challenge, l);
    GroupFits(a, k - m, local, l);
    hide Row, Pow, NodeOf;
    var row, p := Row(f, a, leaves, k, l), a * NodeOf(a, local, l + 1);
    SubSlice(row, q, Pow(a, k - m - l), p, a);
  }

  /** A group of siblings is where the file cursor points. */
  lemma GroupInFile(f: seq<int> -> int, a: nat, leaves: seq<int>, k: nat, m: nat, from: nat, files: seq<seq<int>>,
                    challenge: nat, l: nat, c: nat, pos: nat)
    requires a > 0 && FilesHold(f, a, leaves, k, m, from, files) && challenge < Pow(a, k) && from <= l < k - m
    requires Pow(a, k - m) > 0 && c == challenge / Pow(a, k - m)
    requires pos == Offset(a, k - m, from, l) + a * NodeOf(a, challenge % Pow(a, k - m), l + 1)
    ensures c < |files| && pos + a <= |files[c]|
    ensures files[c][pos..pos + a] == Group(f, a, leaves, k, challenge, l)
  {
    hide Row, Stored, Offset, Pow, NodeOf, Group;
    LocalGroup(f, a, leaves, k, m, challenge, l);
    assert FileHolds(f, a, leaves, k, m, from, c, files[c]);
    var chunk, local := ChunkOf(leaves, Pow(a, k - m), c), challenge % Pow(a, k - m);
    StoredHasRow(f, a, chunk, k - m, from, k - m, l);
    GroupFits(a, k - m, local, l);
    GroupIs(f, a, chunk, k - m, local, l, a * NodeOf(a, local, l + 1));
    GroupAt(Stored(f, a, chunk, k - m, from, k - m), files[c], Row(f, a, chunk, k - m, l),
            Offset(a, k - m, from, l), a * NodeOf(a, local, l + 1), a);
  }

  lemma GroupIs(f: seq<int> -> int, a: nat, leaves: seq<int>, k: nat, challenge: nat, l: nat, p: nat)
    requires a > 0 && |leaves| == Pow(a, k) && l < k && challenge < Pow(a, k) && p == a * NodeOf(a, challenge, l + 1)
    ensures p + a <= Pow(a, k - l) && Group(f, a, leaves, k, challenge, l) == Row(f, a, leaves, k, l)[p..p + a]
  {
    hide Row, Pow, NodeOf;
    GroupFits(a, k, challenge, l);
  }

  lemma GroupAt(stored: seq<int>, file: seq<int>, row: seq<int>, start: nat, p: nat, a: nat)
    requires HasRow(file, 0, stored) && HasRow(stored, start, row) && p + a <= |row|
    ensures start + p + a <= |file| && file[start + p..start + p + a] == row[p..p + a]
  {
    assert file[0..0 + |stored|] == stored;
    SubSlice(file, 0, |stored|, start + p, a);
    SubSlice(stored, start, |row|, p, a);
  }

  /** The roots of the files are the last group of siblings. */
  lemma TopGroup(f: seq<int> -> int, a: nat, leaves: seq<int>, k: nat, from: nat, files: seq<seq<int>>,
                 challenge: nat, i: nat)
    requires a > 0 && k > 0 && FilesHold(f, a, leaves, k, 1, from, files) && challenge < Pow(a, k)
    requires from <= k - 1 && i < a
    ensures |files| == a && Offset(a, k - 1, from, k - 1) < |files[i]|
    ensures files[i][Offset(a, k - 1, from, k - 1)] == Group(f, a, leaves, k, challenge, k - 1)[i]
  {
    hide Row, Stored, Offset, Pow, NodeOf;
    PowSmall(a);
    assert FileHolds(f, a, leaves, k, 1, from, i, files[i]);
    var chunk := ChunkOf(leaves, Pow(a, k - 1), i);
    StoredHasRow(f, a, chunk, k - 1, from, k - 1, k - 1);
    ChunkRowAt(f, a, leaves, k, 1, i, k - 1, i);
    TopNode(a, k, challenge);
    RootOfFile(f, a, leaves, k, i, chunk, challenge);
    GroupAt(Stored(f, a, chunk, k - 1, from, k - 1), files[i], Row(f, a, chunk, k - 1, k - 1),
            Offset(a, k - 1, from, k - 1), 0, 1);
  }

  lemma RootOfFile(f: seq<int> -> int, a: nat, leaves: seq<int>, k: nat, i: nat, chunk: seq<int>, challenge: nat)
    requires a > 0 && k > 0 && |leaves| == Pow(a, k) && |chunk| == Pow(a, k - 1) && challenge < Pow(a, k) && i < a
    requires i + 1 <= Pow(a, 1) && NodeOf(a, challenge, k) == 0
    requires Row(f, a, chunk, k - 1, k - 1) == Row(f, a, leaves, k, k - 1)[i..i + 1]
    ensures Row(f, a, chunk, k - 1, k - 1) == [Group(f, a, leaves, k, challenge, k - 1)[i]]
  {
    hide Row, NodeOf;
    PowSmall(a);
    GroupFits(a, k, challenge, k - 1);
    hide Pow;
    var row := Row(f, a, leaves, k, k - 1);
    assert Group(f, a, leaves, k, challenge, k - 1) == row[0..a];
    assert row[0..a][i] == row[i];
  }

  lemma PowSmall(a: nat)
    ensures Pow(a, 0) == 1 && Pow(a, 1) == a
  {
    assert Pow(a, 1) == a * Pow(a, 0);
  }

  lemma TopNode(a: nat, k: nat, challenge: nat)
    requires a > 0 && challenge < Pow(a, k)
    ensures NodeOf(a, challenge, k) == 0
  {
    NodeInRow(a, k, challenge, k);
  }

  class TreeProof {
    const arity: nat
    const levels: nat
    const treeBufs: seq<seq<int>>
    const discardRows: nat
    const hash: seq<int> -> int
    var leaf: int
    var path: seq<PathElement>

    constructor (arity: nat, levels: nat, treeBufs: seq<seq<int>>, discardRows: nat, hash: seq<int> -> int)
      ensures this.arity == arity && this.levels == levels && this.treeBufs == treeBufs
      ensures this.discardRows == discardRows && this.hash == hash && path == []
    {
      this.arity, this.levels, this.treeBufs, this.discardRows := arity, levels, treeBufs, discardRows;
      this.hash, leaf, path := hash, 0, [];
    }

    /** The elements pushed so far are right, and so is the leaf once there are any. */
    ghost predicate PathOk(leaves: seq<int>, challenge: nat, l: nat)
      reads this
    {
      && arity > 0 && |leaves| == Pow(arity, levels) && challenge < Pow(arity, levels)
      && |path| == l <= levels && (l > 0 ==> leaf == leaves[challenge])
      && forall i :: 0 <= i < l ==> ElementOk(hash, arity, leaves, levels, challenge, i, path[i])
    }

    /** The place among its siblings at each level of the challenge's node. */
    method GetTreePaths(challenge: nat) returns (indices: seq<nat>)
      requires arity > 0
      ensures |indices| == levels && forall i :: 0 <= i < levels ==> indices[i] == NodeOf(arity, challenge, i) % arity
    {
      indices := [];
      var rest := challenge;
      assert Pow(arity, 0) == 1;
      for i := 0 to levels
        invariant |indices| == i && rest == NodeOf(arity, challenge, i)
        invariant forall j :: 0 <= j < i ==> indices[j] == NodeOf(arity, challenge, j) % arity
      {
        NodeUp(arity, challenge, i);
        indices := indices + [rest % arity];
        rest := rest / arity;
      }
    }

    /** The siblings in a run of a buffer. */
    method Siblings(buf: seq<int>, start: nat, index: nat) returns (hashes: seq<int>)
      requires start + arity <= |buf| && index < arity
      ensures hashes == Without(buf[start..start + arity], index)
    {
      hashes := [];
      ghost var run := buf[start..start + arity];
      for a := 0 to arity
        invariant hashes == if a <= index then run[..a] else run[..index] + run[index + 1..a]
      {
        if a != index {
          hashes := hashes + [buf[start + a]];
        }
      }
    }

    lemma NoPath(leaves: seq<int>, challenge: nat)
      requires arity > 0 && |leaves| == Pow(arity, levels) && challenge < Pow(arity, levels) && path == []
      ensures PathOk(leaves, challenge, 0)
    {
    }

    lemma PathFacts(leaves: seq<int>, challenge: nat, l: nat)
      requires PathOk(leaves, challenge, l)
      ensures arity > 0 && |leaves| == Pow(arity, levels) && challenge < Pow(arity, levels) && l <= levels
      ensures l > 0 ==> leaf == leaves[challenge]
    {
    }

    method SetLeaf(node: int, ghost leaves: seq<int>, ghost challenge: nat)
      requires PathOk(leaves, challenge, 0)
      modifies this`leaf
      ensures leaf == node && PathOk(leaves, challenge, 0)
    {
      leaf := node;
    }

    /** Add a path element. */
    method Push(e: PathElement, ghost leaves: seq<int>, ghost challenge: nat, ghost l: nat)
      requires l < levels && arity > 0 && |leaves| == Pow(arity, levels) && challenge < Pow(arity, levels)
      requires PathOk(leaves, challenge, l) && (l == 0 ==> leaf == leaves[challenge])
      requires e.index == NodeOf(arity, challenge, l) % arity && e.index < arity
      requires e.hashes == Without(Group(hash, arity, leaves, levels, challenge, l), e.index)
      modifies this`path
      ensures PathOk(leaves, challenge, l + 1)
    {
      hide Pow, NodeOf, Group;
      path := path + [e];
    }

    /** The levels that the files hold, from the first one at hand to the files' roots. */
    method FileLevels(challenge: nat, indices: seq<nat>, start: nat, finish: nat, startLevelSize: nat,
                      ghost leaves: seq<int>, ghost m: nat) returns (addLevelSize: nat)
      requires PathOk(leaves, challenge, start) && FilesHold(hash, arity, leaves, levels, m, start, treeBufs)
      requires start <= finish == levels - m && startLevelSize == Pow(arity, finish - start)
      requires |indices| == levels && forall i :: 0 <= i < levels ==> indices[i] == NodeOf(arity, challenge, i) % arity
      modifies this
      ensures PathOk(leaves, challenge, finish) && addLevelSize == Offset(arity, finish, start, finish)
    {
      hide Row, Stored, Offset, Pow, NodeOf, FilesHold, ElementOk, Group, PathOk;
      PathFacts(leaves, challenge, start);
      SlotIsMod(challenge, Pow(arity, finish));
      var fileLeaves := Pow(arity, finish);
      LocalNode(arity, levels, m, challenge, 0);
      var bufIdx: nat := challenge / fileLeaves;
      var curLevelSize := startLevelSize;
      addLevelSize := 0;
      NoOffset(arity, finish, start);
      for l := start to finish
        invariant PathOk(leaves, challenge, l)
        invariant addLevelSize == Offset(arity, finish, start, l) && curLevelSize == Pow(arity, finish - l)
      {
        var leafIdx := indices[l];
        var leafStart := NodeOf(arity, challenge % fileLeaves, l);
        NodeUp(arity, challenge % fileLeaves, l);
        leafStart := leafStart - leafStart % arity + addLevelSize;
        GroupInFile(hash, arity, leaves, levels, m, start, treeBufs, challenge, l, bufIdx, leafStart);
        LeafInGroup(hash, arity, leaves, levels, challenge, l);
        OffsetUp(arity, finish, start, l);
        PowDown(arity, finish - l);
        addLevelSize := addLevelSize + curLevelSize;
        curLevelSize := curLevelSize / arity;
        if l == 0 {
          SetLeaf(treeBufs[bufIdx][leafStart + leafIdx], leaves, challenge);
        }
        var hashes := Siblings(treeBufs[bufIdx], leafStart, leafIdx);
        Push(PathElement(leafIdx, hashes), leaves, challenge, l);
      }
    }

    /** Siblings one row above the given nodes: each is hashed from its own children. */
    method HashedSiblings(nodes: seq<int>, start: nat, index: nat, ghost kk: nat, ghost local: nat)
      returns (hashes: seq<int>)
      requires arity > 0 && kk >= 2 && |nodes| == Pow(arity, kk) && local < Pow(arity, kk) && index < arity
      requires start == arity * (arity * NodeOf(arity, local, 2))
      ensures hashes == Without(Group(hash, arity, nodes, kk, local, 1), index)
    {
      hide Row, Pow, NodeOf, Group;
      hashes := [];
      ghost var run := Group(hash, arity, nodes, kk, local, 1);
      for a := 0 to arity
        invariant hashes == if a <= index then run[..a] else run[..index] + run[index + 1..a]
      {
        ChildrenOf(hash, arity, nodes, kk, local, a);
        if a != index {
          hashes := hashes + [hash(nodes[start + arity * a..start + arity * a + arity])];
        }
      }
    }

    /** Siblings two rows above the given nodes, when those are all the nodes there are below them. */
    method TwiceHashedSiblings(nodes: seq<int>, index: nat, ghost local: nat) returns (hashes: seq<int>)
      requires arity > 0 && |nodes| == Pow(arity, 3) && local < Pow(arity, 3) && index < arity
      ensures hashes == Without(Group(hash, arity, nodes, 3, local, 2), index)
    {
      hide Row, Pow, NodeOf, Group;
      hashes := [];
      ghost var run, below := Group(hash, arity, nodes, 3, local, 2), Row(hash, arity, nodes, 3, 1);
      for outer := 0 to arity
        invariant hashes == if outer <= index then run[..outer] else run[..index] + run[index + 1..outer]
      {
        RunBelow(hash, arity, nodes, local, outer);
        if outer != index {
          var buf := [];
          for inner := 0 to arity
            invariant buf == below[arity * outer..arity * outer + inner]
          {
            GrandChildren(hash, arity, nodes, outer, inner);
            var at := arity * (arity * outer) + arity * inner;
            buf := buf + [hash(nodes[at..at + arity])];
          }
          hashes := hashes + [hash(buf)];
        }
      }
    }

    /** Level 0: the siblings are in the buffer. */
    method FirstLevel(challenge: nat, firstLevel: seq<int>, leafStart: nat, index: nat, ghost leaves: seq<int>,
                      ghost kk: nat)
      requires arity > 0 && kk > 0 && levels > 0 && challenge < Pow(arity, levels) && PathOk(leaves, challenge, 0)
      requires Around(arity, leaves, levels, kk, challenge, firstLevel) && index == NodeOf(arity, challenge, 0) % arity
      requires leafStart == arity * NodeOf(arity, challenge % Pow(arity, kk), 1)
      modifies this
      ensures PathOk(leaves, challenge, 1)
    {
      hide Row, Pow, NodeOf, Group, PathOk;
      FirstGroup(hash, arity, leaves, levels, kk, challenge, firstLevel, 0);
      LeafInGroup(hash, arity, leaves, levels, challenge, 0);
      FirstRun(hash, arity, firstLevel, kk, challenge % Pow(arity, kk), leafStart);
      SetLeaf(firstLevel[leafStart + index], leaves, challenge);
      var hashes := Siblings(firstLevel, leafStart, index);
      Push(PathElement(index, hashes), leaves, challenge, 0);
    }

    /** Level 1: the siblings are hashed from the buffer. */
    method SecondLevel(challenge: nat, firstLevel: seq<int>, leafStart: nat, index: nat, ghost leaves: seq<int>,
                       ghost kk: nat)
      requires arity > 0 && kk > 1 && levels > 1 && challenge < Pow(arity, levels) && PathOk(leaves, challenge, 1)
      requires Around(arity, leaves, levels, kk, challenge, firstLevel) && index == NodeOf(arity, challenge, 1) % arity
      requires leafStart == arity * (arity * NodeOf(arity, challenge % Pow(arity, kk), 2))
      modifies this
      ensures PathOk(leaves, challenge, 2)
    {
      hide Row, Pow, NodeOf, Group, PathOk;
      FirstGroup(hash, arity, leaves, levels, kk, challenge, firstLevel, 1);
      LeafInGroup(hash, arity, leaves, levels, challenge, 1);
      var hashes := HashedSiblings(firstLevel, leafStart, index, kk, challenge % Pow(arity, kk));
      Push(PathElement(index, hashes), leaves, challenge, 1);
    }

    /** Level 2: the siblings are hashed twice. The one to skip is found in the buffer, not in the indices. */
    method ThirdLevel(challenge: nat, firstLevel: seq<int>, skip: nat, index: nat, ghost leaves: seq<int>)
      requires arity > 0 && levels > 2 && challenge < Pow(arity, levels) && PathOk(leaves, challenge, 2)
      requires Around(arity, leaves, levels, 3, challenge, firstLevel)
      requires skip == index == NodeOf(arity, challenge, 2) % arity
      modifies this
      ensures PathOk(leaves, challenge, 3)
    {
      hide Row, Pow, NodeOf, Group, PathOk;
      FirstGroup(hash, arity, leaves, levels, 3, challenge, firstLevel, 2);
      LeafInGroup(hash, arity, leaves, levels, challenge, 2);
      var hashes := TwiceHashedSiblings(firstLevel, skip, challenge % Pow(arity, 3));
      Push(PathElement(index, hashes), leaves, challenge, 2);
    }

    /** Rebuild the rows that are not stored from the nodes around the challenge. */
    method PerformFirstLevels(challenge: nat, firstLevel: seq<int>, indices: seq<nat>, ghost leaves: seq<int>)
      returns (done: bool)
      requires arity >= 2 && path == [] && challenge < Pow(arity, levels) && |leaves| == Pow(arity, levels)
      requires (levels == 2 && discardRows == 1) || (levels >= 3 && discardRows == 2)
      requires Around(arity, leaves, levels, discardRows + 1, challenge, firstLevel)
      requires |indices| == levels && forall i :: 0 <= i < levels ==> indices[i] == NodeOf(arity, challenge, i) % arity
      modifies this
      ensures PathOk(leaves, challenge, if levels == 2 then 2 else 3) && done == (levels <= 3)
    {
      hide Row, Pow, NodeOf, Group, PathOk, Around;
      NoPath(leaves, challenge);
      ghost var kk := discardRows + 1;
      FirstStart(arity, levels, kk, challenge);
      var labels := Pow(arity, discardRows + 1);
      var leafStart: nat := (challenge - challenge % arity) % labels;
      FirstLevel(challenge, firstLevel, leafStart, indices[0], leaves, kk);
      leafStart := leafStart - leafStart % (arity * arity);
      SecondLevel(challenge, firstLevel, leafStart, indices[1], leaves, kk);
      if levels == 2 {
        return true;
      }
      ThirdLevel(challenge, firstLevel, leafStart / (arity * arity), indices[2], leaves);
      done := levels == 3;
    }

    /** Collect the siblings on the way up: from the nodes around the challenge for rows that are not
      * stored, from the tree files for the others, and from the files' roots when there are several.
      */
    method GenInclusionPath(challenge: nat, firstLevel: Option<seq<int>>, ghost leaves: seq<int>, ghost m: nat)
      requires arity >= 2 && path == [] && challenge < Pow(arity, levels) && |leaves| == Pow(arity, levels)
      requires m <= 1 && m < levels && |treeBufs| == Pow(arity, m)
      requires match firstLevel
               case None => FilesHold(hash, arity, leaves, levels, m, 0, treeBufs)
               case Some(nodes) =>
                 && Around(arity, leaves, levels, discardRows + 1, challenge, nodes)
                 && ((levels == 2 && discardRows == 1) || (levels >= 3 && discardRows == 2))
                 && (levels > 3 ==> FilesHold(hash, arity, leaves, levels, m, 3, treeBufs))
      modifies this
      ensures PathOk(leaves, challenge, levels)
      ensures leaf == leaves[challenge] && forall l :: 0 <= l < |path| ==> path[l].index <= |path[l].hashes|
      ensures |Row(hash, arity, leaves, levels, levels)| == 1
      ensures Fold(hash, leaf, path) == Row(hash, arity, leaves, levels, levels)[0]
    {
      hide Row, Stored, Offset, Pow, NodeOf, FilesHold, Group, PathOk, Around;
      var indices := GetTreePaths(challenge);
      var start := 0;
      NoPath(leaves, challenge);
      if firstLevel.Some? {
        var done := PerformFirstLevels(challenge, firstLevel.value, indices, leaves);
        if done {
          Folds(leaves, challenge);
          return;
        }
        start := 3;
      }
      FilesAre(arity, levels, m, start);
      var finish := if |treeBufs| == 1 then levels else levels - 1;
      var startLevelSize := Pow(arity, levels - start) / |treeBufs|;
      var addLevelSize := FileLevels(challenge, indices, start, finish, startLevelSize, leaves, m);
      if |treeBufs| == 1 {
        Folds(leaves, challenge);
        return;
      }
      TopLevel(challenge, indices[levels - 1], addLevelSize, leaves, start);
      Folds(leaves, challenge);
    }

    lemma Folds(leaves: seq<int>, challenge: nat)
      requires arity >= 2 && levels > 0 && PathOk(leaves, challenge, levels)
      ensures leaf == leaves[challenge] && forall l :: 0 <= l < |path| ==> path[l].index <= |path[l].hashes|
      ensures |Row(hash, arity, leaves, levels, levels)| == 1
      ensures Fold(hash, leaf, path) == Row(hash, arity, leaves, levels, levels)[0]
    {
      PathFolds(hash, arity, leaves, levels, challenge, leaf, path);
    }

    /** The top level of a tree over several files: their roots are the siblings. */
    method TopLevel(challenge: nat, index: nat, addLevelSize: nat, ghost leaves: seq<int>, ghost start: nat)
      requires arity > 0 && 0 < levels && start < levels && challenge < Pow(arity, levels)
      requires FilesHold(hash, arity, leaves, levels, 1, start, treeBufs) && PathOk(leaves, challenge, levels - 1)
      requires levels > 1 && addLevelSize == Offset(arity, levels - 1, start, levels - 1)
      requires index == NodeOf(arity, challenge, levels - 1) % arity
      modifies this
      ensures PathOk(leaves, challenge, levels)
    {
      hide Row, Stored, Offset, Pow, NodeOf, Group, PathOk, FilesHold;
      PathFacts(leaves, challenge, levels - 1);
      LeafInGroup(hash, arity, leaves, levels, challenge, levels - 1);
      TopGroup(hash, arity, leaves, levels, start, treeBufs, challenge, 0);
      ghost var run := Group(hash, arity, leaves, levels, challenge, levels - 1);
      forall a: nat | a < arity
        ensures |treeBufs| == arity && addLevelSize < |treeBufs[a]| && treeBufs[a][addLevelSize] == run[a]
      {
        TopGroup(hash, arity, leaves, levels, start, treeBufs, challenge, a);
      }
      var hashes := RootSiblings(addLevelSize, index, run);
      Push(PathElement(index, hashes), leaves, challenge, levels - 1);
    }

    /** The roots of the other files. */
    method RootSiblings(at: nat, index: nat, ghost run: seq<int>) returns (hashes: seq<int>)
      requires |run| == |treeBufs| == arity && index < arity
      requires forall a :: 0 <= a < arity ==> at < |treeBufs[a]| && treeBufs[a][at] == run[a]
      ensures hashes == Without(run, index)
    {
      hashes := [];
      for a := 0 to arity
        invariant hashes == if a <= index then run[..a] else run[..index] + run[index + 1..a]
      {
        if a != index {
          hashes := hashes + [treeBufs[a][at]];
        }
      }
    }
  }

  datatype Option<T> = None | Some(value: T)

  lemma FilesAre(a: nat, k: nat, m: nat, start: nat)
    requires a >= 2 && m <= 1 && start + m <= k
    ensures Pow(a, m) == 1 <==> m == 0
    ensures Pow(a, m) > 0 && Pow(a, k - start) / Pow(a, m) == Pow(a, k - m - start)
  {
    PowSmall(a);
    PowAdd(a, m, k - m - start);
    EuclidUnique(Pow(a, k - start), Pow(a, m), Pow(a, k - m - start), 0);
  }

  /** Main result: the path generated for a challenge folds to the root of the tree. */
  lemma PathFolds(f: seq<int> -> int, a: nat, leaves: seq<int>, k: nat, challenge: nat, leaf: int,
                  path: seq<PathElement>)
    requires a >= 2 && k > 0 && |leaves| == Pow(a, k) && challenge < Pow(a,
          k) && |path| == k && leaf == leaves[challenge]
    requires forall l :: 0 <= l < k ==> ElementOk(f, a, leaves, k, challenge, l, path[l])
    ensures forall l :: 0 <= l < |path| ==> path[l].index <= |path[l].hashes|
    ensures |Row(f, a, leaves, k, k)| == 1 && Fold(f, leaf, path) == Row(f, a, leaves, k, k)[0]
  {
    PowSmall(a);
    FoldClimbs(f, a, leaves, k, challenge, path);
  }

  /** The first-level buffer has the Pow(a, kk) leaves around the challenge. */
  ghost predicate Around(a: nat, leaves: seq<int>, k: nat, kk: nat, challenge: nat, nodes: seq<int>) {
    && a > 0 && kk <= k && |leaves| == Pow(a, k) && |nodes| == Pow(a, kk) > 0
    && var c := challenge / Pow(a, kk);
       0 <= c * Pow(a, kk) && c * Pow(a, kk) + Pow(a, kk) <= |leaves|
       && nodes == leaves[c * Pow(a, kk)..c * Pow(a, kk) + Pow(a, kk)]
  }

  /** Collect the leaves around a challenge, as many as the rows that are not stored are built from. */
  method GetTreeRNodes(replica: seq<int>, challenge: nat, labels: nat, ghost a: nat, ghost k: nat, ghost kk: nat)
    returns (nodes: seq<int>)
    requires a > 0 && kk <= k && |replica| == Pow(a, k) && challenge < |replica| && labels == Pow(a, kk)
    ensures Around(a, replica, k, kk, challenge, nodes)
  {
    hide Pow;
    LabelsFit(a, k, kk, challenge);
    var idx := challenge - challenge % labels;
    ghost var start := idx;
    nodes := [];
    for i := 0 to labels
      invariant idx == start + i && nodes == replica[start..start + i]
    {
      nodes := nodes + [replica[idx]];
      idx := idx + 1;
    }
  }

  lemma LabelsFit(a: nat, k: nat, kk: nat, challenge: nat)
    requires a > 0 && kk <= k && challenge < Pow(a, k)
    ensures Pow(a, kk) > 0 && 0 <= challenge / Pow(a, kk)
    ensures
      var n := Pow(a, kk);
      var start := challenge - challenge % n;
      0 <= start == challenge / n * n && start + n <= Pow(a, k)
  {
    var n, w := Pow(a, kk), Pow(a, k - kk);
    PowAdd(a, kk, k - kk);
    SlotIsMod(challenge, n);
    hide Pow;
    assert n * w == w * n;
    DivLess(challenge, n, w);
    MulUpTo(n, challenge / n + 1, w);
    assert n * (challenge / n + 1) == challenge / n * n + n;
  }

  lemma FirstGroup(f: seq<int> -> int, a: nat, leaves: seq<int>, k: nat, kk: nat, challenge: nat, nodes: seq<int>,
                   l: nat)
    requires a > 0 && challenge < Pow(a, k) && Around(a, leaves, k, kk, challenge, nodes) && l < kk
    ensures challenge % Pow(a, kk) < Pow(a, kk)
    ensures Group(f, a, leaves, k, challenge, l) == Group(f, a, nodes, kk, challenge % Pow(a, kk), l)
  {
    LocalGroup(f, a, leaves, k, k - kk, challenge, l);
  }

  /** The starts of the three levels' runs within the buffer. */
  lemma FirstStart(a: nat, k: nat, kk: nat, challenge: nat)
    requires a > 0 && 2 <= kk <= k && challenge < Pow(a, k)
    ensures Pow(a, kk) > 0 && 0 <= challenge % Pow(a, kk) < Pow(a, kk) && 0 <= challenge % a <= challenge
    ensures
      var local := challenge % Pow(a, kk);
      var start := (challenge - challenge % a) % Pow(a, kk);
      && start == a * NodeOf(a, local, 1) && a * a > 0
      && start - start % (a * a) == a * (a * NodeOf(a, local, 2))
      && (start - start % (a * a)) / (a * a) == NodeOf(a, local, 2)
      && (kk == 3 ==> NodeOf(a, local, 2) == NodeOf(a, challenge, 2) % a)
  {
    hide NodeOf, Pow;
    FirstOffset(a, k, kk, challenge);
    var local := challenge % Pow(a, kk);
    FirstDigits(a, kk, local);
    SecondStart(a, NodeOf(a, local, 1), NodeOf(a, local, 2), NodeOf(a, local, 1) % a);
    if kk == 3 {
      ThirdIndex(a, k, challenge);
    }
  }

  lemma FirstOffset(a: nat, k: nat, kk: nat, challenge: nat)
    requires a > 0 && 2 <= kk <= k && challenge < Pow(a, k)
    ensures Pow(a, kk) > 0 && 0 <= challenge % Pow(a, kk) < Pow(a, kk) && 0 <= challenge % a <= challenge
    ensures (challenge - challenge % a) % Pow(a, kk) == a * NodeOf(a, challenge % Pow(a, kk), 1)
  {
    hide NodeOf, Pow;
    LocalNode(a, k, k - kk, challenge, 0);
    FirstDigits(a, kk, challenge % Pow(a, kk));
    PowNext(a, kk - 1);
    SlotIsMod(challenge, Pow(a, kk));
    ClearDigit(a, Pow(a, kk - 1), Pow(a, kk), challenge, NodeOf(a, challenge % Pow(a, kk), 1));
  }

  /** Clearing the last digit before cutting a number off is clearing it afterwards. */
  lemma ClearDigit(a: nat, v: nat, n: nat, x: nat, n1: nat)
    requires a > 0 && n == a * v && n > 0 && x == n * (x / n) + x % n && 0 <= x / n && 0 <= x % n
    requires x % n == a * n1 + x % n % a && 0 <= x % n % a < a && a * n1 < n
    ensures 0 <= x % a <= x && (x - x % a) % n == a * n1
  {
    SameDigit(a, x, x / n, v, n1, x % n % a);
    EuclidUnique(a * n1 + n * (x / n), n, x / n, a * n1);
  }

  lemma FirstDigits(a: nat, kk: nat, local: nat)
    requires a > 0 && 2 <= kk && local < Pow(a, kk)
    ensures
      var n1, n2 := NodeOf(a, local, 1), NodeOf(a, local, 2);
      && local == a * n1 + local % a && 0 <= local % a < a && n1 == a * n2 + n1 % a && 0 <= n1 % a < a
      && a * n1 < Pow(a, kk)
  {
    ZeroNode(a, local);
    NodeUp(a, local, 0);
    NodeUp(a, local, 1);
    SlotIsMod(local, a);
    SlotIsMod(NodeOf(a, local, 1), a);
  }

  lemma ZeroNode(a: nat, x: nat)
    requires a > 0
    ensures NodeOf(a, x, 0) == x
  {
  }

  lemma SameDigit(a: nat, x: nat, c: nat, v: nat, n1: nat, r: nat)
    requires a > 0 && r < a && x == (a * v) * c + a * n1 + r
    ensures x % a == r && x - x % a == (a * v) * c + a * n1
  {
    assert (a * v) * c == a * (v * c);
    Distribute(a, v * c, n1);
    EuclidUnique(x, a, v * c + n1, r);
  }

  lemma SecondStart(a: nat, n1: nat, n2: nat, r: nat)
    requires a > 0 && n1 == a * n2 + r && r < a
    ensures a * a > 0 && a * n1 - a * n1 % (a * a) == a * (a * n2) && a * (a * n2) / (a * a) == n2
  {
    MulUpTo(a, 1, a);
    Distribute(a, a * n2, r);
    assert a * (a * n2) == (a * a) * n2;
    MulGap(a, r, a);
    EuclidUnique(a * n1, a * a, n2, a * r);
    EuclidUnique(a * (a * n2), a * a, n2, 0);
  }

  lemma ThirdIndex(a: nat, k: nat, challenge: nat)
    requires a > 0 && 3 <= k && challenge < Pow(a, k)
    ensures Pow(a, 3) > 0 && 0 <= challenge % Pow(a, 3) < Pow(a, 3)
    ensures NodeOf(a, challenge % Pow(a, 3), 2) == NodeOf(a, challenge, 2) % a
  {
    LocalNode(a, k, k - 3, challenge, 2);
    PowSmall(a);
    var c, local := challenge / Pow(a, 3), challenge % Pow(a, 3);
    NodeInRow(a, 3, local, 2);
    assert c * a == a * c;
    EuclidUnique(NodeOf(a, challenge, 2), a, c, NodeOf(a, local, 2));
  }

  lemma FirstRun(f: seq<int> -> int, a: nat, nodes: seq<int>, kk: nat, local: nat, start: nat)
    requires a > 0 && kk > 0 && |nodes| == Pow(a, kk) && local < Pow(a, kk) && start == a * NodeOf(a, local, 1)
    ensures start + a <= |nodes| && Group(f, a, nodes, kk, local, 0) == nodes[start..start + a]
  {
    GroupFits(a, kk, local, 0);
    FirstRow(f, a, nodes, kk);
  }

  lemma ChildrenOf(f: seq<int> -> int, a: nat, nodes: seq<int>, kk: nat, local: nat, i: nat)
    requires a > 0 && kk >= 2 && |nodes| == Pow(a, kk) && local < Pow(a, kk) && i < a
    ensures
      var start := a * (a * NodeOf(a, local, 2));
      && start >= 0 && a * i >= 0 && start + a * i + a <= |nodes|
      && Group(f, a, nodes, kk, local, 1)[i] == f(nodes[start + a * i..start + a * i + a])
  {
    GroupFits(a, kk, local, 1);
    var p := a * NodeOf(a, local, 2);
    RowOne(f, a, nodes, kk, p + i);
    Distribute(a, p, i);
    hide Row, Pow, NodeOf;
    assert Row(f, a, nodes, kk, 1)[p..p + a][i] == Row(f, a, nodes, kk, 1)[p + i];
  }

  lemma RowOne(f: seq<int> -> int, a: nat, nodes: seq<int>, kk: nat, i: nat)
    requires a > 0 && kk > 0 && |nodes| == Pow(a, kk) && i < Pow(a, kk - 1)
    ensures a * i + a <= |nodes| && Row(f, a, nodes, kk, 1)[i] == f(nodes[a * i..a * i + a])
  {
    RowAgain(f, a, nodes, kk, 1);
    FirstRow(f, a, nodes, kk);
    HashRowAt(f, a, nodes, Pow(a, kk - 1), i);
  }

  lemma RunBelow(f: seq<int> -> int, a: nat, nodes: seq<int>, local: nat, i: nat)
    requires a > 0 && |nodes| == Pow(a, 3) && local < Pow(a, 3) && i < a
    ensures 0 <= a * i && a * i + a <= |Row(f, a, nodes, 3, 1)|
    ensures Group(f, a, nodes, 3, local, 2)[i] == f(Row(f, a, nodes, 3, 1)[a * i..a * i + a])
  {
    TopNode(a, 3, local);
    GroupFits(a, 3, local, 2);
    PowSmall(a);
    RowAgain(f, a, nodes, 3, 2);
    hide Row, Pow, NodeOf;
    HashRowAt(f, a, Row(f, a, nodes, 3, 1), a, i);
    var row := Row(f, a, nodes, 3, 2);
    assert Group(f, a, nodes, 3, local, 2) == row[0..a] && row[0..a][i] == row[i];
  }

  lemma GrandChildren(f: seq<int> -> int, a: nat, nodes: seq<int>, i: nat, j: nat)
    requires a > 0 && |nodes| == Pow(a, 3) && i < a && j < a
    ensures 0 <= a * i && a * i + j < |Row(f, a, nodes, 3, 1)|
    ensures 0 <= a * (a * i) + a * j && a * (a * i) + a * j + a <= |nodes|
    ensures Row(f, a, nodes, 3, 1)[a * i + j] == f(nodes[a * (a * i) + a * j..a * (a * i) + a * j + a])
  {
    PowSmall(a);
    PowNext(a, 1);
    MulUpTo(a, i + 1, a);
    Distribute(a, i, 1);
    hide Row, Pow;
    RowOne(f, a, nodes, 3, a * i + j);
    Distribute(a, a * i, j);
  }

  /** At row 0 the challenged leaf is in its place in the group. */
  lemma LeafInGroup(f: seq<int> -> int, a: nat, leaves: seq<int>, k: nat, challenge: nat, l: nat)
    requires a > 0 && |leaves| == Pow(a, k) && challenge < Pow(a, k) && l < k
    ensures 0 <= NodeOf(a, challenge, l) % a < a
    ensures l == 0 ==> Group(f, a, leaves, k, challenge, 0)[NodeOf(a, challenge, 0) % a] == leaves[challenge]
  {
    SlotIsMod(NodeOf(a, challenge, l), a);
    NodeInRow(a, k, challenge, 0);
    NodeInGroup(f, a, leaves, k, challenge, 0);
    ZeroUp(f, a, leaves, k, challenge);
  }
}
