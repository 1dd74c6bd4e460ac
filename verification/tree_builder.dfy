/** The sequential and the chunked tree builder of PC1, over arrays and cursors into them. */
module TreeBuilding {
  import opened RingMath
  import opened TreeRows
  import opened TreeChunks

  /** The builders return the node in front of their output cursor; there may be none. */
  datatype Outcome = Root(node: int) | BeforeBuffer

  /** Hash runs of `a` nodes from one place to another; the two may start at the same place. */
  method HashRun(f: seq<int> -> int, a: nat, src: array<int>, srcPos: nat, dst: array<int>, dstPos: nat,
                 count: nat, ghost w: nat)
    requires a > 0 && count == a * w && srcPos + count <= src.Length && dstPos + w <= dst.Length
    requires src == dst ==> srcPos + count <= dstPos || srcPos == dstPos
    modifies dst
    ensures dst[dstPos..dstPos + w] == HashRow(f, a, old(src[srcPos..srcPos + count]), w)
    ensures forall p :: 0 <= p < dst.Length && !(dstPos <= p < dstPos + w) ==> dst[p] == old(dst[p])
  {
    hide HashRow, RunDone;
    ghost var row, before := src[srcPos..srcPos + count], dst[..];
    NoRun(f, a, row, before, dstPos);
    var i: nat, o: nat := 0, dstPos;
    ghost var q: nat := 0;
    while i < count
      invariant q <= w && i == a * q && o == dstPos + q && i <= count
      invariant RunDone(f, a, row, before, dst[..], dstPos, q)
    {
      RunFits(a, q, w);
      RunLeft(f, a, row, before, dst[..], src == dst, src[..], srcPos, dstPos, q, i);
      ghost var now := dst[..];
      dst[o] := f(src[srcPos + i..srcPos + i + a]);
      RunMore(f, a, row, before, now, dstPos, q, i);
      i, o, q := i + a, o + 1, q + 1;
    }
    RunFits(a, q, w);
    RunIs(f, a, row, before, dst[..], dstPos, w);
  }

  /** The first q hashes of a row are in place, and nothing else was touched. */
  ghost predicate RunDone(f: seq<int> -> int, a: nat, row: seq<int>, before: seq<int>, now: seq<int>, pos: nat, q: nat)
  {
    && a * q <= |row| && pos + q <= |now| == |before| && now[pos..pos + q] == HashRow(f, a, row, q)
    && forall p :: 0 <= p < |now| && !(pos <= p < pos + q) ==> now[p] == before[p]
  }

  lemma NoRun(f: seq<int> -> int, a: nat, row: seq<int>, before: seq<int>, pos: nat)
    requires pos <= |before|
    ensures RunDone(f, a, row, before, before, pos, 0)
  {
  }

  lemma RunIs(f: seq<int> -> int, a: nat, row: seq<int>, before: seq<int>, now: seq<int>, pos: nat, q: nat)
    requires RunDone(f, a, row, before, now, pos, q)
    ensures a * q <= |row| && pos + q <= |now| == |before| && now[pos..pos + q] == HashRow(f, a, row, q)
    ensures forall p :: 0 <= p < |now| && !(pos <= p < pos + q) ==> now[p] == before[p]
  {
  }

  lemma RunMore(f: seq<int> -> int, a: nat, row: seq<int>, before: seq<int>, now: seq<int>, pos: nat, q: nat, i: nat)
    requires RunDone(f, a, row, before, now, pos, q) && i == a * q && a * q + a == a * (q + 1) <= |row|
    requires pos + q < |now|
    ensures RunDone(f, a, row, before, now[pos + q := f(row[i..i + a])], pos, q + 1)
  {
    HashRowMore(f, a, row, q);
    var now' := now[pos + q := f(row[i..i + a])];
    assert now'[pos..pos + q + 1] == now[pos..pos + q] + [now'[pos + q]];
  }

  /** The next group is still to be read where it was, also from the array that is written to. */
  lemma RunLeft(f: seq<int> -> int, a: nat, row: seq<int>, before: seq<int>, now: seq<int>, same: bool, src: seq<int>,
                srcPos: nat, pos: nat, q: nat, i: nat)
    requires RunDone(f, a, row, before, now, pos, q) && i + a <= |row| && srcPos + |row| <= |src| && q <= i
    requires if same then src == now && before[srcPos..srcPos + |row|] == row else src[srcPos..srcPos + |row|] == row
    requires same ==> srcPos + |row| <= |before| && (srcPos + |row| <= pos || srcPos == pos)
    ensures src[srcPos + i..srcPos + i + a] == row[i..i + a]
  {
    hide HashRow;
    if same {
      forall x | i <= x < |row| ensures src[srcPos + x] == row[x] {
        assert before[srcPos + x] == before[srcPos..srcPos + |row|][x];
      }
    } else {
      forall x | i <= x < |row| ensures src[srcPos + x] == row[x] {
        assert src[srcPos + x] == src[srcPos..srcPos + |row|][x];
      }
    }
    StillThere(src, srcPos, |row|, row, i, a);
  }

  /** What is left of a run that is being read. */
  lemma StillThere(s: seq<int>, pos: nat, count: nat, row: seq<int>, i: nat, a: nat)
    requires pos + count <= |s| && |row| == count && i + a <= count
    requires forall x :: i <= x < count ==> s[pos + x] == row[x]
    ensures s[pos + i..pos + i + a] == row[i..i + a]
  {
  }

  lemma HashRowMore(f: seq<int> -> int, a: nat, row: seq<int>, q: nat)
    requires a * q + a == a * (q + 1) <= |row|
    ensures HashRow(f, a, row, q + 1) == HashRow(f, a, row, q) + [f(row[a * q..a * q + a])]
  {
  }

  lemma RunFits(a: nat, q: nat, w: nat)
    requires a > 0 && q <= w
    ensures a * q + a == a * (q + 1) && q <= a * q && a * q <= a * w
    ensures a * q < a * w ==> q < w && a * q + a <= a * w
    ensures a * q >= a * w ==> q == w
  {
    MulUpTo(a, q, w);
    MulGap(a, q, w);
    if q > 0 { MulUpTo(q, 1, a); }
    if q < w { MulUpTo(a, q + 1, w); }
  }

  /** One row up: sizes, places and stored rows. */
  lemma NextRow(f: seq<int> -> int, a: nat, leaves: seq<int>, k: nat, from: nat, l: nat)
    requires a >= 2 && |leaves| == Pow(a, k) && l < k
    ensures
      var w := Pow(a, k - l - 1);
      && Pow(a, k - l) == a * w && Pow(a, k - l) / a == w && Pow(a, k - l) >= 2 && w <= Pow(a, k - 1)
      && Row(f, a, leaves, k, l + 1) == HashRow(f, a, Row(f, a, leaves, k, l), w)
      && (from <= l + 1 ==>
            && Offset(a, k, from, l + 2) == Offset(a, k, from, l + 1) + w
            && Stored(f, a, leaves, k, from, l + 1) == Stored(f, a, leaves, k, from, l) + Row(f, a, leaves, k, l + 1))
      && (from <= l ==> Offset(a, k, from, l + 1) == Offset(a, k, from, l) + Pow(a, k - l))
      && (l + 1 < from ==> Offset(a, k, from, l + 2) == 0 && Stored(f, a, leaves, k, from, l + 1) == [])
  {
    var w := Pow(a, k - l - 1);
    EuclidUnique(Pow(a, k - l), a, w, 0);
    MulUpTo(a, 1, w);
    PowGrows(a, k - l - 1, k - 1);
  }

  lemma {:induction false} PowGrows(a: nat, x: nat, y: nat)
    requires a > 0 && x <= y
    ensures Pow(a, x) <= Pow(a, y)
    decreases y
  {
    if x < y {
      PowGrows(a, x, y - 1);
      MulUpTo(Pow(a, y - 1), 1, a);
    }
  }

  /** Sizes of the next row up. */
  lemma NextSize(a: nat, k: nat, from: nat, l: nat)
    requires a >= 2 && l < k
    ensures
      var w := Pow(a, k - l - 1);
      && Pow(a, k - l) == a * w && Pow(a, k - l) / a == w && Pow(a, k - l) >= 2
      && (l + 1 <= from ==> Offset(a, k, from, l + 1) == 0)
      && Offset(a, k, from, l + 2) == if from <= l + 1 then Offset(a, k, from, l + 1) + w else 0
  {
    var w := Pow(a, k - l - 1);
    EuclidUnique(Pow(a, k - l), a, w, 0);
    MulUpTo(a, 1, w);
  }

  lemma SizeStarts(a: nat, k: nat, c: nat)
    requires c > 0 && a > 0
    ensures c * Pow(a, k) / c == Pow(a, k) && Offset(a, k, 0, 1) == Pow(a, k) && Pow(a, 0) == 1
    ensures forall from :: from > 0 ==> Offset(a, k, from, 1) == 0
  {
    EuclidUnique(c * Pow(a, k), c, Pow(a, k), 0);
  }

  /** Row `l` is at hand in one buffer, and the rows stored so far are in another. */
  ghost predicate Built(f: seq<int> -> int, a: nat, leaves: seq<int>, k: nat, from: nat, l: nat,
                        o: seq<int>, outPos: nat, s: seq<int>, srcPos: nat)
    requires |leaves| == Pow(a, k) && l <= k
  {
    HasRow(s, srcPos, Row(f, a, leaves, k, l)) && HasRow(o, outPos, Stored(f, a, leaves, k, from, l))
  }

  /** Hash row `l` into row `l + 1`, which is either a stored row or in a buffer of its own. */
  method RaiseRow(f: seq<int> -> int, a: nat, src: array<int>, srcPos: nat, dst: array<int>, dstPos: nat,
                  curCount: nat, ghost out: array<int>, ghost outPos: nat,
                  ghost leaves: seq<int>, ghost k: nat, ghost from: nat, ghost l: nat)
    requires a >= 2 && |leaves| == Pow(a, k) && l < k && curCount == Pow(a, k - l)
    requires Built(f, a, leaves, k, from, l, out[..], outPos, src[..], srcPos)
    requires outPos + Offset(a, k, from, k + 1) <= out.Length && dstPos + Pow(a, k - l - 1) <= dst.Length
    requires if l + 1 < from then dst != out else dst == out && dstPos == outPos + Offset(a, k, from, l + 1)
    requires src == dst ==> srcPos + curCount <= dstPos || srcPos == dstPos
    modifies dst
    ensures Built(f, a, leaves, k, from, l + 1, out[..], outPos, dst[..], dstPos)
    ensures Only(out[..], old(out[..]), outPos, outPos + Offset(a, k, from, k + 1))
  {
    hide Row, Stored, HashRow, Pow, Offset;
    NextRow(f, a, leaves, k, from, l);
    ghost var o := out[..];
    assert src[srcPos..srcPos + curCount] == Row(f, a, leaves, k, l);
    HashRun(f, a, src, srcPos, dst, dstPos, curCount, Pow(a, k - l - 1));
    assert HasRow(dst[..], dstPos, Row(f, a, leaves, k, l + 1));
    BuiltNext(f, a, leaves, k, from, l, o, out[..], outPos);
  }

  lemma BuiltNext(f: seq<int> -> int, a: nat, leaves: seq<int>, k: nat, from: nat, l: nat,
                  o: seq<int>, o': seq<int>, outPos: nat)
    requires a >= 2 && |leaves| == Pow(a, k) && l < k && |o'| == |o|
    requires HasRow(o, outPos, Stored(f, a, leaves, k, from, l)) && outPos + Offset(a, k, from, k + 1) <= |o|
    requires if l + 1 < from then o' == o
             else var lo := outPos + Offset(a, k, from, l + 1);
                  && HasRow(o', lo, Row(f, a, leaves, k, l + 1))
                  && forall p :: 0 <= p < |o| && !(lo <= p < lo + Pow(a, k - l - 1)) ==> o'[p] == o[p]
    ensures HasRow(o', outPos, Stored(f, a, leaves, k, from, l + 1))
    ensures Only(o', o, outPos, outPos + Offset(a, k, from, k + 1))
  {
    hide Row, Stored, HashRow, Pow, Offset;
    NextRow(f, a, leaves, k, from, l);
    StoredSize(f, a, leaves, k, from, l);
    OffsetGrows(a, k, from, l + 2, k + 1);
    if from <= l + 1 {
      var rows, row := Stored(f, a, leaves, k, from, l), Row(f, a, leaves, k, l + 1);
      assert o'[outPos..outPos + |rows|] == o[outPos..outPos + |rows|];
      assert o'[outPos..outPos + |rows| + |row|]
          == o'[outPos..outPos + |rows|] + o'[outPos + |rows|..outPos + |rows| + |row|];
    }
  }

  lemma BuiltStarts(f: seq<int> -> int, a: nat, leaves: seq<int>, k: nat, from: nat,
                    o: seq<int>, outPos: nat, s: seq<int>, srcPos: nat)
    requires |leaves| == Pow(a, k) && outPos + Offset(a, k, from, 1) <= |o| && HasRow(s, srcPos, leaves)
    requires from == 0 ==> s == o && srcPos == outPos
    ensures Built(f, a, leaves, k, from, 0, o, outPos, s, srcPos)
  {
  }

  lemma RootRead(f: seq<int> -> int, a: nat, leaves: seq<int>, k: nat, from: nat,
                 out: seq<int>, outPos: nat, src: seq<int>, srcPos: nat)
    requires a >= 2 && |leaves| == Pow(a, k) && Built(f, a, leaves, k, from, k, out, outPos, src, srcPos)
    ensures |Row(f, a, leaves, k, k)| == 1 && outPos + Offset(a, k, from, k + 1) <= |out|
    ensures out[outPos..outPos + Offset(a, k, from, k + 1)] == Stored(f, a, leaves, k, from, k)
    ensures if from <= k then Offset(a, k, from, k + 1) > 0
                              && out[outPos + Offset(a, k, from, k + 1) - 1] == Row(f, a, leaves, k, k)[0]
            else Offset(a, k, from, k + 1) == 0
  {
    StoredSize(f, a, leaves, k, from, k);
    assert Pow(a, 0) == 1;
    if from <= k {
      var s := Stored(f, a, leaves, k, from, k);
      assert s[|s| - 1] == Row(f, a, leaves, k, k)[0];
    }
  }

  /** An array has changed only between two places. */
  ghost predicate Only(now: seq<int>, before: seq<int>, lo: int, hi: int) {
    |now| == |before| && forall p :: 0 <= p < |now| && !(lo <= p < hi) ==> now[p] == before[p]
  }

  lemma OnlyNothing(s: seq<int>, lo: int, hi: int)
    ensures Only(s, s, lo, hi)
  {
  }

  lemma OnlyWithin(now: seq<int>, before: seq<int>, lo: int, mid: int, hi: int)
    requires |now| == |before| && mid <= hi
    requires forall p :: 0 <= p < |now| && !(lo <= p < mid) ==> now[p] == before[p]
    ensures Only(now, before, lo, hi)
  {
  }

  lemma OnlyAgain(s1: seq<int>, s2: seq<int>, s0: seq<int>, lo: int, hi: int)
    requires Only(s2, s1, lo, hi) && Only(s1, s0, lo, hi)
    ensures Only(s2, s0, lo, hi)
  {
  }

  /** A change above a place keeps what is below it. */
  lemma TopOnly(s1: seq<int>, s2: seq<int>, s0: seq<int>, lo: int, hi: int)
    requires Only(s2, s1, lo, hi) && (s1 == s0 || Only(s1, s0, 0, hi)) && 0 <= lo <= |s1|
    ensures Only(s2, s0, 0, hi) && s2[..lo] == s1[..lo]
  {
  }

  /** Where row `l + 1` goes, and why it can be written while row `l` is read. */
  ghost predicate Placed(a: nat, k: nat, from: nat, l: nat, out: array<int>, outPos: nat, temp: array<int>,
                         src: array<int>, srcPos: nat, dst: array<int>, dstPos: nat, start: nat)
    requires l <= k
  {
    && (if l + 1 < from then dst == temp && dstPos == start == 0
        else dst == out && dstPos == outPos + Offset(a, k, from, l + 1) && start == outPos)
    && (src == out ==> srcPos + Pow(a, k - l) <= outPos + Offset(a, k, from, l + 1))
    && (src == temp ==> srcPos == 0)
  }

  lemma PlacedNext(a: nat, k: nat, from: nat, l: nat, out: array<int>, outPos: nat, temp: array<int>,
                   src: array<int>, srcPos: nat, dst: array<int>, dstPos: nat, start: nat,
                   dst': array<int>, dstPos': nat, start': nat)
    requires a >= 2 && l < k && out != temp && Placed(a, k, from, l, out, outPos, temp, src, srcPos, dst, dstPos, start)
    requires dst' == (if l + 2 < from then temp else out) && start' == (if l + 2 < from then 0 else outPos)
    requires dstPos' == if l + 2 < from then 0
                        else if l + 2 == from then outPos else dstPos + Pow(a, k - l - 1)
    ensures Placed(a, k, from, l + 1, out, outPos, temp, dst, dstPos, dst', dstPos', start')
    ensures dst == out ==> dstPos + Pow(a, k - l - 1) <= outPos + Offset(a, k, from, k + 1)
  {
    OffsetUp(a, k, from, l + 1);
    OffsetGrows(a, k, from, l + 2, k + 1);
    hide Pow, Offset;
  }

  lemma PlacedStarts(a: nat, k: nat, from: nat, out: array<int>, outPos: nat, temp: array<int>,
                     src: array<int>, srcPos: nat, dst: array<int>, dstPos: nat, start: nat)
    requires out != temp && src != temp && (src == out ==> srcPos + Pow(a, k) <= outPos + Offset(a, k, from, 1))
    requires if 1 < from then dst == temp && dstPos == start == 0
             else dst == out && start == outPos && dstPos == outPos + (if from == 0 then Pow(a, k) else 0)
    ensures Placed(a, k, from, 0, out, outPos, temp, src, srcPos, dst, dstPos, start)
  {
    OffsetUp(a, k, from, 0);
  }

  lemma RootPlace(a: nat, k: nat, from: nat, out: array<int>, outPos: nat, temp: array<int>,
                  src: array<int>, srcPos: nat, dst: array<int>, dstPos: nat, start: nat)
    requires Placed(a, k, from, k, out, outPos, temp, src, srcPos, dst, dstPos, start)
    ensures if from <= k then dst == out && dstPos == outPos + Offset(a, k, from, k + 1) && start == outPos
            else dstPos == start
  {
    OffsetUp(a, k, from, k);
  }

  /** One turn of the level loop. */
  method Climb(f: seq<int> -> int, a: nat, src: array<int>, srcPos: nat, dst: array<int>, dstPos: nat, curCount: nat,
               ghost out: array<int>, ghost outPos: nat, ghost temp: array<int>, ghost start: nat,
               ghost leaves: seq<int>, ghost k: nat, ghost from: nat, ghost l: nat)
    requires a >= 2 && |leaves| == Pow(a, k) && l < k && curCount == Pow(a, k - l) && out != temp
    requires Placed(a, k, from, l, out, outPos, temp, src, srcPos, dst, dstPos, start)
    requires Built(f, a, leaves, k, from, l, out[..], outPos, src[..], srcPos)
    requires outPos + Offset(a, k, from, k + 1) <= out.Length && (from > 1 ==> temp.Length >= Pow(a, k - 1))
    modifies dst
    ensures Built(f, a, leaves, k, from, l + 1, out[..], outPos, dst[..], dstPos)
    ensures Only(out[..], old(out[..]), outPos, outPos + Offset(a, k, from, k + 1))
  {
    hide Pow, Offset, Built;
    NextSize(a, k, from, l);
    OffsetGrows(a, k, from, l + 2, k + 1);
    PowGrows(a, k - l - 1, k - 1);
    RaiseRow(f, a, src, srcPos, dst, dstPos, curCount, out, outPos, leaves, k, from, l);
  }

  /** A chunk's row `l` is at hand, and its pieces of the stored rows up to it are in place. */
  ghost predicate ChunkAt(f: seq<int> -> int, a: nat, chunk: seq<int>, k: nat, m: nat, from: nat, c: nat, l: nat,
                          out: array<int>, src: array<int>, srcPos: nat)
    requires m <= k && |chunk| == Pow(a, k - m) && l <= k - m
    reads out, src
  {
    && HasRow(src[..], srcPos, Row(f, a, chunk, k - m, l))
    && ChunkDone(f, a, chunk, k, m, from, c, l, out[..])
  }

  /** Where a chunk's piece of row `l + 1` goes, and why row `l` can be read meanwhile. */
  ghost predicate ChunkPlaced(a: nat, k: nat, m: nat, from: nat, c: nat, l: nat, out: array<int>, temp: array<int>,
                              src: array<int>, srcPos: nat, dst: array<int>, dstPos: nat)
    requires m <= k && l <= k - m
  {
    && (l < k - m ==>
          if l + 1 < from then dst == temp && dstPos == 0 else dst == out && dstPos == Place(a, k, m, from, c, l + 1))
    && (src == out ==> from <= l && srcPos == Place(a, k, m, from, c, l))
    && (src == temp ==> srcPos == 0)
  }

  lemma ChunkFinished(f: seq<int> -> int, a: nat, chunk: seq<int>, k: nat, m: nat, from: nat, c: nat,
                      out: array<int>, src: array<int>, srcPos: nat)
    requires m <= k && |chunk| == Pow(a, k - m) && ChunkAt(f, a, chunk, k, m, from, c, k - m, out, src, srcPos)
    ensures ChunkDone(f, a, chunk, k, m, from, c, k - m, out[..])
  {
  }

  /** A chunk's columns hash to its run of row 0. */
  lemma ColumnChunk(f: seq<int> -> int, a: nat, input: seq<int>, w: nat, c: nat, n: nat, p: nat, q: nat)
    requires a > 0 && |input| == a * w && c * n + n <= w && q == a * n && p == c * q
    ensures p + q <= |input| && HashRow(f, a, input[p..p + q], n) == HashRow(f, a, input, w)[c * n..c * n + n]
    ensures ShareStart(c, q, a) == c * n
  {
    hide HashRow;
    TimesSwap(a, c, n);
    HashRowSlice(f, a, input, w, c * n, n, p, q);
    EuclidUnique(p, a, c * n, 0);
  }

  lemma LeavesAtHand(f: seq<int> -> int, a: nat, leaves: seq<int>, k: nat, m: nat, from: nat, c: nat,
                     input: seq<int>, pos: nat, o: seq<int>)
    requires m <= k && from > 0 && pos == c * Pow(a, k - m) && pos + Pow(a, k - m) <= |leaves| <= |input|
    requires leaves == input[..|leaves|]
    ensures var chunk := ChunkOf(leaves, Pow(a, k - m), c);
            HasRow(input, pos, Row(f, a, chunk, k - m, 0)) && ChunkDone(f, a, chunk, k, m, from, c, 0, o)
  {
    hide Pow;
  }

  lemma ColumnsPlaced(f: seq<int> -> int, a: nat, chunk: seq<int>, k: nat, m: nat, c: nat, o: seq<int>, o': seq<int>,
                      pos: nat)
    requires m <= k && |chunk| == Pow(a, k - m) && |o'| == |o| && pos == c * Pow(a, k - m)
    requires HasRow(o', pos, chunk)
    requires forall p :: 0 <= p < |o| && !(pos <= p < pos + |chunk|) ==> o'[p] == o[p]
    ensures pos == Place(a, k, m, 0, c, 0) && Row(f, a, chunk, k - m, 0) == chunk
    ensures ChunkDone(f, a, chunk, k, m, 0, c, 0, o') && OnlyMine(o', o, a, k, m, 0, c)
  {
    assert Place(a, k, m, 0, c, 0) == pos;
  }

  lemma ChunkCount(colArity: nat, a: nat, k: nat, m: nat)
    requires a > 0 && m <= k
    ensures Pow(a, m) > 0 && Pow(a, k) / Pow(a, m) == Pow(a, k - m)
    ensures colArity * Pow(a, k) / Pow(a, m) == colArity * Pow(a, k - m)
  {
    var n, w := Pow(a, m), Pow(a, k - m);
    PowAdd(a, m, k - m);
    EuclidUnique(n * w, n, w, 0);
    TimesSwap(colArity, n, w);
    assert colArity * (n * w) == n * (colArity * w);
    EuclidUnique(n * (colArity * w), n, colArity * w, 0);
  }

  lemma MineWithin(o: seq<int>, o': seq<int>, a: nat, k: nat, m: nat, from: nat, c: nat)
    requires a > 0 && m <= k && c < Pow(a, m) && OnlyMine(o', o, a, k, m, from, c)
    ensures Only(o', o, 0, Offset(a, k, from, k + 1))
  {
    hide Pow, Offset, Place;
    forall p | 0 <= p < |o| && p >= Offset(a, k, from, k + 1) ensures o'[p] == o[p] {
      if Mine(a, k, m, from, c, p) {
        var j: nat :| from <= j <= k - m && Place(a, k, m, from, c, j) <= p < Place(a, k, m, from, c, j) + Pow(a,
              k - m - j);
        PlaceFits(a, k, m, from, c, j);
      }
    }
  }

  lemma AllPiecesKept(f: seq<int> -> int, a: nat, leaves: seq<int>, k: nat, m: nat, from: nat, c: nat,
                      o: seq<int>, o': seq<int>, c': nat)
    requires a > 0 && m <= k && c < Pow(a, m) && c' < Pow(a, m) && c != c'
    requires AllPieces(f, a, leaves, k, m, from, c, o) && OnlyMine(o', o, a, k, m, from, c')
    ensures AllPieces(f, a, leaves, k, m, from, c, o')
  {
    hide OnlyMine, Pow, ChunkDone;
    ChunkKept(f, a, ChunkOf(leaves, Pow(a, k - m), c), k, m, from, c, o, o', c');
  }

  lemma ChunkPlacedNext(a: nat, k: nat, m: nat, from: nat, c: nat, l: nat, out: array<int>, temp: array<int>,
                        src: array<int>, srcPos: nat, dst: array<int>, dstPos: nat, dst': array<int>, dstPos': nat)
    requires m <= k && l < k - m && out != temp
    requires ChunkPlaced(a, k, m, from, c, l, out, temp, src, srcPos, dst, dstPos)
    requires l + 1 < k - m ==> if l + 2 < from then dst' == temp && dstPos' == 0
                               else dst' == out && dstPos' == Place(a, k, m, from, c, l + 2)
    ensures ChunkPlaced(a, k, m, from, c, l + 1, out, temp, dst, dstPos, dst', dstPos')
  {
  }

  /** One turn of a chunk's level loop. */
  method ClimbChunk(f: seq<int> -> int, a: nat, src: array<int>, srcPos: nat, dst: array<int>, dstPos: nat,
                    curCount: nat, ghost out: array<int>, ghost temp: array<int>, ghost chunk: seq<int>,
                    ghost k: nat, ghost m: nat, ghost from: nat, ghost c: nat, ghost l: nat)
    requires a >= 2 && m <= k && |chunk| == Pow(a, k - m) && c < Pow(a, m) && l < k - m && out != temp
    requires curCount == Pow(a, k - m - l) && Offset(a, k, from, k + 1) <= out.Length
    requires from > 1 ==> temp.Length >= Pow(a, k - m - 1)
    requires ChunkPlaced(a, k, m, from, c, l, out, temp, src, srcPos, dst, dstPos)
    requires ChunkAt(f, a, chunk, k, m, from, c, l, out, src, srcPos)
    modifies dst
    ensures ChunkAt(f, a, chunk, k, m, from, c, l + 1, out, dst, dstPos)
    ensures OnlyMine(out[..], old(out[..]), a, k, m, from, c)
  {
    hide Row, Stored, HashRow, Pow, Offset, Place, Mine;
    NextRow(f, a, chunk, k - m, from, l);
    PowGrows(a, k - m - l - 1, k - m - 1);
    ghost var w, row := Pow(a, k - m - l - 1), Row(f, a, chunk, k - m, l);
    if from <= l + 1 {
      PlaceFits(a, k, m, from, c, l + 1);
      if src == out {
        PlaceFits(a, k, m, from, c, l);
      }
    }
    assert src[srcPos..srcPos + curCount] == row;
    ghost var before := out[..];
    HashRun(f, a, src, srcPos, dst, dstPos, curCount, w);
    assert HasRow(dst[..], dstPos, Row(f, a, chunk, k - m, l + 1));
    ChunkStored(f, a, chunk, k, m, from, c, l, before, out[..]);
  }

  lemma ChunkStarts(a: nat, k: nat, m: nat, from: nat, c: nat, out: array<int>, temp: array<int>,
                    src: array<int>, srcPos: nat, dst: array<int>, dstPos: nat)
    requires a >= 2 && m <= k && out != temp && src != temp
    requires src == out ==> from == 0 && srcPos == Place(a, k, m, from, c, 0)
    requires if 1 < from then dst == temp && dstPos == 0
             else dst == out && dstPos == Offset(a, k, from, 1) + ShareStart(c, Pow(a, k - m), a)
    ensures k > 0 ==> Pow(a, k) / a == Pow(a, k - 1) && (k > m ==> Pow(a, k - m - 1) <= Pow(a, k - 1))
    ensures ChunkPlaced(a, k, m, from, c, 0, out, temp, src, srcPos, dst, dstPos)
  {
    if k > 0 { PowDown(a, k); }
    if k > m {
      NextPlace(a, k, m, from, c, 0);
      PowGrows(a, k - m - 1, k - 1);
    }
  }

  /** Sizes and places one level up. */
  lemma ChunkSizes(a: nat, k: nat, m: nat, from: nat, c: nat, l: nat)
    requires a >= 2 && m <= k && l < k - m
    ensures Pow(a, k - m - l) / a == Pow(a, k - m - l - 1) && Pow(a, k - l) / a == Pow(a, k - l - 1)
    ensures Offset(a, k, from, l + 2)
            == if from <= l + 1 then Offset(a, k, from, l + 1) + Pow(a, k - l - 1) else 0
    ensures l + 1 <= from ==> Offset(a, k, from, l + 1) == 0
    ensures l + 1 < k - m ==>
      Place(a, k, m, from, c, l + 2) == Offset(a, k, from, l + 2) + ShareStart(c, Pow(a, k - m - l - 1), a)
  {
    NextSize(a, k - m, from, l);
    NextSize(a, k, from, l);
    if l + 1 < k - m { NextPlace(a, k, m, from, c, l + 1); }
  }

  lemma ChunkStored(f: seq<int> -> int, a: nat, chunk: seq<int>, k: nat, m: nat, from: nat, c: nat, l: nat,
                    o: seq<int>, o': seq<int>)
    requires a >= 2 && m <= k && |chunk| == Pow(a, k - m) && c < Pow(a, m) && l < k - m && |o'| == |o|
    requires ChunkDone(f, a, chunk, k, m, from, c, l, o)
    requires if l + 1 < from then o' == o
             else HasRow(o', Place(a, k, m, from, c, l + 1), Row(f, a, chunk, k - m, l + 1))
                  && var lo := Place(a, k, m, from, c, l + 1);
                  forall p :: 0 <= p < |o| && !(lo <= p < lo + Pow(a, k - m - l - 1)) ==> o'[p] == o[p]
    ensures ChunkDone(f, a, chunk, k, m, from, c, l + 1, o') && OnlyMine(o', o, a, k, m, from, c)
  {
    hide Row, Pow, Offset, Place;
    if from <= l + 1 {
      OthersKept(f, a, chunk, k, m, from, c, l, o, o', c, l + 1);
    }
  }

  class TreeBuilder {
    const colArity: nat
    const arity: nat
    const discardRows: nat
    const colHash: seq<int> -> int
    const hash: seq<int> -> int

    constructor (colArity: nat, arity: nat, discardRows: nat, colHash: seq<int> -> int, hash: seq<int> -> int)
      requires colArity > 0 && arity >= 2 && discardRows <= 2
      ensures Ok() && this.colArity == colArity && this.arity == arity && this.discardRows == discardRows
      ensures this.colHash == colHash && this.hash == hash
    {
      this.colArity, this.arity, this.discardRows := colArity, arity, discardRows;
      this.colHash, this.hash := colHash, hash;
    }

    predicate Ok() { colArity > 0 && arity >= 2 && discardRows <= 2 }

    /** The first row that is stored: the column hashes, or the row after the discarded ones. */
    function First(cols: bool, noDiscard: bool): nat {
      if cols then 0 else if noDiscard then 1 else discardRows + 1
    }

    function Count(cols: bool, k: nat): nat { if cols then colArity * Pow(arity, k) else Pow(arity, k) }

    function Leaves(cols: bool, input: seq<int>, k: nat): (r: seq<int>)
      requires |input| == Count(cols, k)
      ensures |r| == Pow(arity, k)
    {
      if cols then HashRow(colHash, colArity, input, Pow(arity, k)) else input
    }

    /** How many nodes a tree file has. */
    method Size(count: nat, cols: bool, noDiscard: bool, ghost k: nat) returns (total: nat)
      requires Ok() && count == Count(cols, k)
      ensures total == Offset(arity, k, First(cols, noDiscard), k + 1)
    {
      hide Pow, Offset;
      SizeStarts(arity, k, colArity);
      var curCount: nat := count;
      total := 0;
      if cols {
        total := total + curCount / colArity;
        curCount := curCount / colArity;
      }
      var discards: nat := if cols || noDiscard then 0 else discardRows;
      ghost var l, from := 0, First(cols, noDiscard);
      while curCount > 1
        invariant 0 <= l <= k && curCount == Pow(arity, k - l)
        invariant discards == if l + 1 < from then from - 1 - l else 0
        invariant total == Offset(arity, k, from, l + 1)
        decreases k - l
      {
        PowAbove(arity, k - l);
        NextSize(arity, k, from, l);
        if discards > 0 {
          discards := discards - 1;
        } else {
          total := total + curCount / arity;
        }
        curCount := curCount / arity;
        l := l + 1;
      }
      PowAbove(arity, k - l);
    }

    /** Hash level after level from a row of Pow(arity, k) nodes. The stored rows end up one after the
      * other at `outPos`; the discarded ones share a temporary buffer, the second of them written over
      * the first while it is read.
      */
    method HashLevels(count: nat, out: array<int>, outPos: nat, cursor: nat, input: array<int>, inPos: nat,
                      discards0: int, ghost k: nat, ghost from: nat) returns (r: Outcome)
      requires Ok() && k > 0 && count == Pow(arity, k) && inPos + count <= input.Length && discards0 <= 2
      requires if discards0 > 0 then from == discards0 + 1 else from <= 1
      requires outPos + Offset(arity, k, from, k + 1) <= out.Length
      requires if from == 0 then input == out && inPos == outPos && cursor == outPos + count else cursor == outPos
      requires input == out ==> inPos + count <= outPos + Offset(arity, k, from, 1)
      modifies out
      ensures
        var leaves := old(input[inPos..inPos + count]);
        && out[outPos..outPos + Offset(arity, k, from, k + 1)] == Stored(hash, arity, leaves, k, from, k)
        && |Row(hash, arity, leaves, k, k)| == 1
        && r == if k < from then BeforeBuffer else Root(Row(hash, arity, leaves, k, k)[0])
      ensures Only(out[..], old(out[..]), outPos, outPos + Offset(arity, k, from, k + 1))
    {
      hide Row, Stored, HashRow, Pow, Offset, Built, Only;
      ghost var leaves := input[inPos..inPos + count];
      SizeStarts(arity, k, arity);
      PowDown(arity, k);
      OffsetGrows(arity, k, from, 1, k + 1);
      var src: array<int>, srcPos: nat, curCount: nat := input, inPos, count;
      var discards: int := discards0;
      var temp := new int[if discards > 0 then count / arity else 0](_ => 0);
      var dst: array<int>, dstPos: nat, start: nat := out, cursor, outPos;
      if discards > 0 { dst, dstPos, start := temp, 0, 0; }
      BuiltStarts(hash, arity, leaves, k, from, out[..], outPos, src[..], srcPos);
      PlacedStarts(arity, k, from, out, outPos, temp, src, srcPos, dst, dstPos, start);
      ghost var l: nat, before := 0, out[..];
      OnlyNothing(out[..], outPos, outPos + Offset(arity, k, from, k + 1));
      while curCount > 1
        invariant 0 <= l <= k && curCount == Pow(arity, k - l) && discards == discards0 - l
        invariant Built(hash, arity, leaves, k, from, l, out[..], outPos, src[..], srcPos)
        invariant Placed(arity, k, from, l, out, outPos, temp, src, srcPos, dst, dstPos, start)
        invariant Only(out[..], before, outPos, outPos + Offset(arity, k, from, k + 1))
        decreases k - l
      {
        ghost var now := out[..];
        PowAbove(arity, k - l);
        NextSize(arity, k, from, l);
        Climb(hash, arity, src, srcPos, dst, dstPos, curCount, out, outPos, temp, start, leaves, k, from, l);
        ghost var src0, srcPos0, dst0, dstPos0, start0 := src, srcPos, dst, dstPos, start;
        src, srcPos := dst, dstPos;
        curCount := curCount / arity;
        dstPos := dstPos + curCount;
        discards := discards - 1;
        if discards == 1 {
          dst, dstPos, start := temp, 0, 0;
        } else if discards == 0 {
          dst, dstPos, start := out, outPos, outPos;
        }
        PlacedNext(arity, k, from, l, out, outPos, temp, src0, srcPos0, dst0, dstPos0, start0, dst, dstPos, start);
        OnlyAgain(now, out[..], before, outPos, outPos + Offset(arity, k, from, k + 1));
        l := l + 1;
      }
      PowAbove(arity, k - l);
      RootRead(hash, arity, leaves, k, from, out[..], outPos, src[..], srcPos);
      RootPlace(arity, k, from, out, outPos, temp, src, srcPos, dst, dstPos, start);
      if dstPos == start {
        return BeforeBuffer;
      }
      r := Root(dst[dstPos - 1]);
    }

    /** Single-threaded builder: hash the columns if there are any, then level after level. */
    method BuildTree(count: nat, out: array<int>, outPos: nat, input: array<int>, inPos: nat,
                     cols: bool, noDiscard: bool, ghost k: nat) returns (r: Outcome)
      requires Ok() && k > 0 && count == Count(cols, k) && inPos + count <= input.Length
      requires outPos + Offset(arity, k, First(cols, noDiscard), k + 1) <= out.Length
      requires input == out ==> inPos + count <= outPos
      modifies out
      ensures
        var from := First(cols, noDiscard);
        var leaves := Leaves(cols, old(input[inPos..inPos + count]), k);
        && out[outPos..outPos + Offset(arity, k, from, k + 1)] == Stored(hash, arity, leaves, k, from, k)
        && |Row(hash, arity, leaves, k, k)| == 1
        && r == if k < from then BeforeBuffer else Root(Row(hash, arity, leaves, k, k)[0])
      ensures Only(out[..], old(out[..]), outPos, outPos + Offset(arity, k, First(cols, noDiscard), k + 1))
    {
      hide Row, Stored, HashRow, Pow, Offset, Only;
      ghost var from := First(cols, noDiscard);
      SizeStarts(arity, k, colArity);
      OffsetGrows(arity, k, from, 1, k + 1);
      if cols {
        HashRun(colHash, colArity, input, inPos, out, outPos, count, Pow(arity, k));
        ghost var now := out[..];
        OnlyWithin(now, old(out[..]), outPos, outPos + Pow(arity, k), outPos + Offset(arity, k, from, k + 1));
        r := HashLevels(count / colArity, out, outPos, outPos + count / colArity, out, outPos, -1, k, from);
        OnlyAgain(now, out[..], old(out[..]), outPos, outPos + Offset(arity, k, from, k + 1));
      } else {
        r := HashLevels(count, out, outPos, outPos, input, inPos, if noDiscard then -1 else discardRows, k, from);
      }
    }

    /** A chunk's levels, from its row 0 on: like the whole tree's, but each stored row is shared. */
    method ChunkLevels(c: nat, out: array<int>, layerStart0: nat, layerSize0: nat, input: array<int>, inPos: nat,
                       cursor: nat, chunkSize: nat, discards0: int, ghost k: nat, ghost m: nat, ghost from: nat,
                       ghost chunk: seq<int>)
      requires Ok() && m <= k && c < Pow(arity, m) && chunkSize == Pow(arity, k - m) == |chunk| && discards0 <= 2
      requires if discards0 > 0 then from == discards0 + 1 else from <= 1
      requires Offset(arity, k, from, k + 1) <= out.Length
      requires layerStart0 == Offset(arity, k, from, 1) && layerSize0 == Pow(arity, k)
      requires cursor == layerStart0 + ShareStart(c, chunkSize, arity)
      requires ChunkAt(hash, arity, chunk, k, m, from, c, 0, out, input, inPos)
      requires input == out ==> from == 0 && inPos == Place(arity, k, m, from, c, 0)
      modifies out
      ensures ChunkDone(hash, arity, chunk, k, m, from, c, k - m, out[..])
      ensures OnlyMine(out[..], old(out[..]), arity, k, m, from, c)
    {
      hide Row, Stored, HashRow, Pow, Offset, Place, Mine, OnlyMine, ChunkPlaced, ChunkAt, ShareStart;
      var layerStart, layerSize, curCount: nat := layerStart0, layerSize0, chunkSize;
      var src: array<int>, srcPos: nat := input, inPos;
      var dst: array<int>, dstPos: nat := out, cursor;
      var discards: int := discards0;
      var temp := new int[if discards > 0 then layerSize0 / arity else 0](_ => 0);
      if discards > 0 { dst, dstPos := temp, 0; }
      ghost var l: nat, before := 0, out[..];
      OnlyMineNothing(before, arity, k, m, from, c);
      ChunkStarts(arity, k, m, from, c, out, temp, src, srcPos, dst, dstPos);
      while curCount > 1
        invariant 0 <= l <= k - m && curCount == Pow(arity, k - m - l) && layerSize == Pow(arity, k - l)
        invariant discards == discards0 - l && layerStart == Offset(arity, k, from, l + 1)
        invariant ChunkAt(hash, arity, chunk, k, m, from, c, l, out, src, srcPos)
        invariant dst == out || dst == temp
        invariant ChunkPlaced(arity, k, m, from, c, l, out, temp, src, srcPos, dst, dstPos)
        invariant OnlyMine(out[..], before, arity, k, m, from, c)
        decreases k - l
      {
        PowAbove(arity, k - m - l);
        ghost var now := out[..];
        ClimbChunk(hash, arity, src, srcPos, dst, dstPos, curCount, out, temp, chunk, k, m, from, c, l);
        OnlyMineAgain(now, out[..], before, arity, k, m, from, c);
        ChunkSizes(arity, k, m, from, c, l);
        ghost var src0, srcPos0 := src, srcPos;
        src, srcPos := dst, dstPos;
        curCount := curCount / arity;
        layerSize := layerSize / arity;
        discards := discards - 1;
        if discards == 1 {
          dst, dstPos := temp, 0;
        } else if discards == 0 {
          dst, dstPos := out, ShareStart(c, curCount, arity);
        } else {
          layerStart := layerStart + layerSize;
          dst, dstPos := out, layerStart + ShareStart(c, curCount, arity);
        }
        ChunkPlacedNext(arity, k, m, from, c, l, out, temp, src0, srcPos0, src, srcPos, dst, dstPos);
        l := l + 1;
      }
      PowAbove(arity, k - m - l);
      ChunkFinished(hash, arity, chunk, k, m, from, c, out, src, srcPos);
    }

    /** Enough chunks, a power of the arity, to keep the pool busy. */
    method ChunksFor(poolSize: nat, ghost levels: nat) returns (numChunks: nat)
      requires Ok() && TopLevels(arity, poolSize, levels)
      ensures numChunks == Pow(arity, levels)
    {
      numChunks := arity;
      var minChunks := poolSize * 4;
      ghost var m: nat := 1;
      while numChunks < minChunks
        invariant numChunks == Pow(arity, m) && m <= levels
        decreases levels - m
      {
        PowUp(arity, m);
        numChunks := numChunks * arity;
        m := m + 1;
      }
    }

    /** One chunk of the parallel builder. */
    method BuildChunk(c: nat, count: nat, chunkSize: nat, out: array<int>, input: array<int>,
                      cols: bool, noDiscard: bool, ghost k: nat, ghost m: nat)
      requires Ok() && m <= k && c < Pow(arity, m) && count == Count(cols, k) && chunkSize == Count(cols, k - m)
      requires count <= input.Length && Offset(arity, k, First(cols, noDiscard), k + 1) <= out.Length && input != out
      modifies out
      ensures AllPieces(hash, arity, Leaves(cols, input[..count], k), k, m, First(cols, noDiscard), c, out[..])
      ensures OnlyMine(out[..], old(out[..]), arity, k, m, First(cols, noDiscard), c)
    {
      hide Row, Stored, HashRow, Pow, Offset, Place, Mine, ShareStart;
      ghost var from := First(cols, noDiscard);
      ghost var leaves := Leaves(cols, input[..count], k);
      ghost var n := Pow(arity, k - m);
      ChunkFits(arity, k, m, c, 0);
      ghost var chunk := ChunkOf(leaves, n, c);
      if cols {
        ColumnChunk(colHash, colArity, input[..count], Pow(arity, k), c, n, c * chunkSize, chunkSize);
        assert input[..count][c * chunkSize..c * chunkSize + chunkSize]
            == input[c * chunkSize..c * chunkSize + chunkSize];
        PlaceFits(arity, k, m, 0, c, 0);
        SizeStarts(arity, k, colArity);
        SizeStarts(arity, k - m, colArity);
        var cursor := ShareStart(c, chunkSize, colArity);
        HashRun(colHash, colArity, input, c * chunkSize, out, cursor, chunkSize, n);
        ghost var now := out[..];
        ColumnsPlaced(hash, arity, chunk, k, m, c, old(out[..]), now, cursor);
        var layerSize, curCount := count / colArity, chunkSize / colArity;
        ChunkLevels(c, out, layerSize, layerSize, out, cursor, layerSize + ShareStart(c, curCount, arity), curCount, -1,
                    k, m, from, chunk);
        OnlyMineAgain(now, out[..], old(out[..]), arity, k, m, from, c);
      } else {
        SizeStarts(arity, k, arity);
        LeavesAtHand(hash, arity, leaves, k, m, from, c, input[..], c * chunkSize, out[..]);
        ChunkLevels(c, out, 0, count, input, c * chunkSize, ShareStart(c, chunkSize, arity), chunkSize,
                    if noDiscard then -1 else discardRows, k, m, from, chunk);
      }
    }

    /** All chunks, in whatever order the pool takes them. */
    method BuildChunks(count: nat, numChunks: nat, out: array<int>, input: array<int>, cols: bool, noDiscard: bool,
                       order: seq<nat>, ghost k: nat, ghost m: nat)
      requires Ok() && m <= k && numChunks == Pow(arity, m) && count == Count(cols, k)
      requires count <= input.Length && Offset(arity, k, First(cols, noDiscard), k + 1) <= out.Length && input != out
      requires forall i, j :: 0 <= i < j < |order| ==> order[i] != order[j]
      requires forall c :: c in order <==> 0 <= c < numChunks
      modifies out
      ensures forall c :: 0 <= c < numChunks ==>
        AllPieces(hash, arity, Leaves(cols, input[..count], k), k, m, First(cols, noDiscard), c, out[..])
      ensures Only(out[..], old(out[..]), 0, Offset(arity, k, First(cols, noDiscard), k + 1))
    {
      hide Row, Stored, HashRow, Pow, Offset, OnlyMine, Only, AllPieces;
      ghost var from, leaves := First(cols, noDiscard), Leaves(cols, input[..count], k);
      ChunkCount(colArity, arity, k, m);
      var chunkSize := count / numChunks;
      OnlyNothing(out[..], 0, Offset(arity, k, from, k + 1));
      for i := 0 to |order|
        invariant forall s :: 0 <= s < i ==> AllPieces(hash, arity, leaves, k, m, from, order[s], out[..])
        invariant Only(out[..], old(out[..]), 0, Offset(arity, k, from, k + 1))
      {
        ghost var now := out[..];
        assert order[i] in order;
        BuildChunk(order[i], count, chunkSize, out, input, cols, noDiscard, k, m);
        MineWithin(now, out[..], arity, k, m, from, order[i]);
        OnlyAgain(now, out[..], old(out[..]), 0, Offset(arity, k, from, k + 1));
        forall s | 0 <= s < i ensures AllPieces(hash, arity, leaves, k, m, from, order[s], out[..]) {
          assert order[s] in order;
          AllPiecesKept(hash, arity, leaves, k, m, from, order[s], now, out[..], order[i]);
        }
      }
      assert leaves == Leaves(cols, input[..count], k);
      forall c | 0 <= c < numChunks ensures AllPieces(hash, arity, leaves, k, m, from, c, out[..]) {
        assert c in order;
      }
    }

    /** Multi-threaded builder: the chunks' own levels, then the top over the chunks' last row. `order` is
      * the order in which the pool happens to take the chunks.
      */
    method BuildTreeParallel(count: nat, out: array<int>, input: array<int>, poolSize: nat, cols: bool, noDiscard: bool,
                             order: seq<nat>, ghost k: nat, ghost m: nat) returns (r: Outcome)
      requires Ok() && count == Count(cols, k) && TopLevels(arity, poolSize, m) && m <= k
      requires count <= input.Length && Offset(arity, k, First(cols, noDiscard), k + 1) <= out.Length && input != out
      requires noDiscard ==> cols || discardRows == 0
      requires forall i, j :: 0 <= i < j < |order| ==> order[i] != order[j]
      requires forall c :: c in order <==> 0 <= c < Pow(arity, m)
      modifies out
      ensures
        var from := First(cols, noDiscard);
        var leaves := Leaves(cols, input[..count], k);
        && |Row(hash, arity, leaves, k, k)| == 1
        && if k - m < from then r == BeforeBuffer
           else out[..Offset(arity, k, from, k + 1)] == Stored(hash, arity, leaves, k, from, k)
                && r == Root(Row(hash, arity, leaves, k, k)[0])
      ensures Only(out[..], old(out[..]), 0, Offset(arity, k, First(cols, noDiscard), k + 1))
    {
      hide Row, Stored, HashRow, Pow, Offset, Only, AllPieces, TopLevels;
      ghost var from, leaves := First(cols, noDiscard), Leaves(cols, input[..count], k);
      assert m >= 1 by { TopLevelsPositive(arity, poolSize, m); }
      var numChunks := ChunksFor(poolSize, m);
      PowNext(arity, m);
      BuildChunks(count, numChunks, out, input, cols, noDiscard, order, k, m);
      var topSize := Size(numChunks * arity, false, true, m + 1);
      var size := Size(count, cols, false, k);
      assert leaves == Leaves(cols, input[..count], k);
      TopStart(arity, k, m, from);
      PowAbove(arity, 0);
      if size < topSize {
        return BeforeBuffer;
      }
      ghost var now := out[..];
      r := MergeChunks(numChunks, size - topSize, out, leaves, k, m, from);
      TopOnly(now, out[..], old(out[..]), 0, Offset(arity, k, from, k + 1));
    }

    /** Build the top tree over the chunks' last row, right behind it. */
    method MergeChunks(numChunks: nat, top: nat, out: array<int>, ghost leaves: seq<int>,
                       ghost k: nat, ghost m: nat, ghost from: nat) returns (r: Outcome)
      requires Ok() && |leaves| == Pow(arity, k) && 1 <= m <= k && from <= k - m && numChunks == Pow(arity, m)
      requires Offset(arity, k, from, k + 1) <= out.Length && top == Offset(arity, k, from, k - m)
      requires forall c :: 0 <= c < numChunks ==> AllPieces(hash, arity, leaves, k, m, from, c, out[..])
      modifies out
      ensures out[..Offset(arity, k, from, k + 1)] == Stored(hash, arity, leaves, k, from, k)
      ensures |Row(hash, arity, leaves, k, k)| == 1 && r == Root(Row(hash, arity, leaves, k, k)[0])
      ensures Only(out[..], old(out[..]), 0, Offset(arity, k, from, k + 1))
    {
      hide Row, Stored, HashRow, Pow, Offset, Only, AllPieces;
      ghost var now := out[..];
      PowAbove(arity, 0);
      ChunksMakeStored(hash, arity, leaves, k, m, from, now);
      StoredOneMore(hash, arity, leaves, k, from, k - m);
      RestSize(arity, k, from, k - m, k);
      assert out[top..top + numChunks] == Row(hash, arity, leaves, k, k - m);
      r := BuildTree(numChunks, out, top + numChunks, out, top, false, true, m);
      TopOnly(now, out[..], now, top + numChunks, Offset(arity, k, from, k + 1));
      StoredSize(hash, arity, Row(hash, arity, leaves, k, k - m), m, 1, m);
      TopCompletes(hash, arity, leaves, k, m, from, now, out[..]);
    }
  }
}
