/** The rows of a tree and the order in which a tree file stores them. */
module TreeRows {
  import opened RingMath

  /** The row above: each run of `a` nodes is hashed to one; `w` nodes of it. */
  function HashRow(f: seq<int> -> int, a: nat, row: seq<int>, w: nat): (r: seq<int>)
    requires a * w <= |row|
    ensures |r| == w
  {
    if w == 0 then []
    else
      assert a * w == a * (w - 1) + a;
      HashRow(f, a, row, w - 1) + [f(row[a * (w - 1)..a * (w - 1) + a])]
  }

  /** Row `l` over Pow(a, k) leaves, counted from the leaves. */
  function Row(f: seq<int> -> int, a: nat, leaves: seq<int>, k: nat, l: nat): (r: seq<int>)
    requires |leaves| == Pow(a, k) && l <= k
    ensures |r| == Pow(a, k - l)
  {
    if l == 0 then leaves else HashRow(f, a, Row(f, a, leaves, k, l - 1), Pow(a, k - l))
  }

  /** Rows `from` to `to` one after the other, as a tree file stores them. */
  function Stored(f: seq<int> -> int, a: nat, leaves: seq<int>, k: nat, from: nat, last: nat): (r: seq<int>)
    requires |leaves| == Pow(a, k) && last <= k
    decreases last
  {
    if last < from then []
    else if last == 0 then Row(f, a, leaves, k, 0)
    else Stored(f, a, leaves, k, from, last - 1) + Row(f, a, leaves, k, last)
  }

  /** The place of row `to` in a file that starts at row `from`. */
  function Offset(a: nat, k: nat, from: nat, last: nat): nat
    requires last <= k + 1
    decreases last
  {
    if last <= from then 0 else Offset(a, k, from, last - 1) + Pow(a, k - (last - 1))
  }

  lemma OffsetUp(a: nat, k: nat, from: nat, l: nat)
    requires l <= k
    ensures Offset(a, k, from, l + 1) == if from <= l then Offset(a, k, from, l) + Pow(a, k - l) else 0
  {
  }

  lemma NoOffset(a: nat, k: nat, from: nat)
    requires from <= k + 1
    ensures Offset(a, k, from, from) == 0
  {
  }

  lemma {:induction false} StoredSize(f: seq<int> -> int, a: nat, leaves: seq<int>, k: nat, from: nat, last: nat)
    requires |leaves| == Pow(a, k) && last <= k
    ensures |Stored(f, a, leaves, k, from, last)| == Offset(a, k, from, last + 1)
    decreases last
  {
    if from <= last {
      if last > 0 {
        StoredSize(f, a, leaves, k, from, last - 1);
      }
    }
  }

  lemma HashRowSliceAt(f: seq<int> -> int, a: nat, row: seq<int>, w: nat, i: nat, n: nat, part: seq<int>, t: nat)
    requires a * w <= |row| && i + n <= w && i <= t < i + n
    requires 0 <= a * i && a * i + a * n <= |row| && part == row[a * i..a * i + a * n]
    ensures HashRow(f, a, row, w)[t] == HashRow(f, a, part, n)[t - i]
  {
    SliceFits(a, w, i, n, t - i);
    HashRowAt(f, a, row, w, t);
    HashRowAt(f, a, part, n, t - i);
    SubSlice(row, a * i, a * n, a * (t - i), a);
  }

  lemma SubSlice(row: seq<int>, p: nat, q: nat, x: nat, y: nat)
    requires p + q <= |row| && x + y <= q
    ensures row[p..p + q][x..x + y] == row[p + x..p + x + y]
  {
    var part := row[p..p + q];
    assert forall t :: x <= t < x + y ==> part[t] == row[p + t];
  }

  lemma SliceFits(a: nat, w: nat, i: nat, n: nat, j: nat)
    requires i + n <= w && j < n
    ensures 0 <= a * i && a * i + a * n <= a * w && a * (i + j) == a * i + a * j && 0 <= a * j && a * j + a <= a * n
  {
    MulUpTo(a, i + n, w);
    MulUpTo(a, j + 1, n);
    assert a * (i + n) == a * i + a * n;
    assert a * (j + 1) == a * j + a;
  }

  /** Runs of nodes make runs of hashes. */
  lemma HashRowSlice(f: seq<int> -> int, a: nat, row: seq<int>, w: nat, i: nat, n: nat, p: nat, q: nat)
    requires a * w <= |row| && i + n <= w && p == a * i && q == a * n
    ensures p + q <= |row| && HashRow(f, a, row, w)[i..i + n] == HashRow(f, a, row[p..p + q], n)
  {
    hide HashRow;
    MulUpTo(a, i + n, w);
    assert a * (i + n) == a * i + a * n;
    SliceHashes(f, a, row, w, i, n, row[p..p + q]);
  }

  lemma SliceHashes(f: seq<int> -> int, a: nat, row: seq<int>, w: nat, i: nat, n: nat, part: seq<int>)
    requires a * w <= |row| && i + n <= w
    requires 0 <= a * i && a * i + a * n <= |row| && part == row[a * i..a * i + a * n]
    ensures HashRow(f, a, row, w)[i..i + n] == HashRow(f, a, part, n)
  {
    hide HashRow;
    var all, some := HashRow(f, a, row, w), HashRow(f, a, part, n);
    forall t | i <= t < i + n ensures all[t] == some[t - i] {
      HashRowSliceAt(f, a, row, w, i, n, part, t);
    }
  }

  lemma MulUpTo(a: nat, x: nat, y: nat)
    requires x <= y
    ensures a * x <= a * y
  {
    MulGap(a, x, y);
  }

  lemma {:induction false} HashRowAt(f: seq<int> -> int, a: nat, row: seq<int>, w: nat, i: nat)
    requires a * w <= |row| && i < w
    ensures a * i + a <= |row| && HashRow(f, a, row, w)[i] == f(row[a * i..a * i + a])
    decreases w
  {
    assert a * w == a * (w - 1) + a;
    if i < w - 1 { HashRowAt(f, a, row, w - 1, i); }
  }

  lemma {:induction false} PowAdd(a: nat, x: nat, y: nat)
    ensures Pow(a, x + y) == Pow(a, x) * Pow(a, y)
  {
    if x > 0 {
      PowAdd(a, x - 1, y);
      PowNext(a, x - 1 + y);
      PowNext(a, x - 1);
      TimesThree(a, Pow(a, x - 1), Pow(a, y));
    }
  }

  lemma TimesThree(a: nat, x: nat, y: nat)
    ensures a * (x * y) == (a * x) * y
  {
  }

  /** A row of a row is a higher row. */
  lemma {:induction false} RowOfRow(f: seq<int> -> int, a: nat, leaves: seq<int>, k: nat, l: nat, j: nat)
    requires |leaves| == Pow(a, k) && l + j <= k
    ensures Row(f, a, Row(f, a, leaves, k, l), k - l, j) == Row(f, a, leaves, k, l + j)
    decreases j
  {
    if j > 0 { RowOfRow(f, a, leaves, k, l, j - 1); }
  }

  /** The rows over one of Pow(a, m) equal runs of leaves are runs of the rows over all. */
  lemma {:induction false} RowOfChunk(f: seq<int> -> int, a: nat, leaves: seq<int>, k: nat, m: nat, c: nat, l: nat,
                                      chunk: seq<int>, p: nat, q: nat)
    requires a > 0 && |leaves| == Pow(a, k) && m <= k && l <= k - m && c < Pow(a, m)
    requires p == c * Pow(a, k - m) && p + Pow(a, k - m) <= |leaves| && chunk == leaves[p..p + Pow(a, k - m)]
    requires q == c * Pow(a, k - m - l)
    ensures
      var w := Pow(a, k - m - l);
      q + w <= Pow(a, k - l) && Row(f, a, chunk, k - m, l) == Row(f, a, leaves, k, l)[q..q + w]
    decreases l
  {
    hide Row, HashRow, Pow;
    ChunkFits(a, k, m, c, l);
    if l == 0 {
      FirstRow(f, a, chunk, k - m);
      FirstRow(f, a, leaves, k);
    } else {
      TimesSwap(a, c, Pow(a, k - m - l));
      PowNext(a, k - m - l);
      RowOfChunk(f, a, leaves, k, m, c, l - 1, chunk, p, a * q);
      ChunkRow(f, a, leaves, k, k - m, l, chunk, q, a * q);
    }
  }

  lemma FirstRow(f: seq<int> -> int, a: nat, leaves: seq<int>, k: nat)
    requires |leaves| == Pow(a, k)
    ensures Row(f, a, leaves, k, 0) == leaves
  {
  }

  lemma PowNext(a: nat, k: nat)
    ensures Pow(a, k + 1) == a * Pow(a, k)
  {
  }

  /** One row up, a chunk's row stays a run of the whole row. */
  lemma ChunkRow(f: seq<int> -> int, a: nat, leaves: seq<int>, k: nat, k': nat, l: nat, chunk: seq<int>, q: nat, p: nat)
    requires |leaves| == Pow(a, k) && |chunk| == Pow(a, k') && 0 < l <= k' <= k && p == a * q
    requires p + Pow(a, k' - l + 1) <= Pow(a, k - l + 1) && q + Pow(a, k' - l) <= Pow(a, k - l)
    requires Row(f, a, chunk, k', l - 1) == Row(f, a, leaves, k, l - 1)[p..p + Pow(a, k' - l + 1)]
    ensures Row(f, a, chunk, k', l) == Row(f, a, leaves, k, l)[q..q + Pow(a, k' - l)]
  {
    RowAgain(f, a, chunk, k', l);
    RowAgain(f, a, leaves, k, l);
    hide Row, HashRow, Pow;
    HashRowSlice(f, a, Row(f, a, leaves, k, l - 1), Pow(a, k - l), q, Pow(a, k' - l), p, Pow(a, k' - l + 1));
  }

  lemma TimesSwap(a: nat, c: nat, w: nat)
    ensures a * (c * w) == c * (a * w)
  {
  }

  lemma RowAgain(f: seq<int> -> int, a: nat, leaves: seq<int>, k: nat, l: nat)
    requires |leaves| == Pow(a, k) && 0 < l <= k
    ensures a * Pow(a, k - l) == |Row(f, a, leaves, k, l - 1)| && Pow(a, k - l + 1) == a * Pow(a, k - l)
    ensures Row(f, a, leaves, k, l) == HashRow(f, a, Row(f, a, leaves, k, l - 1), Pow(a, k - l))
  {
  }

  /** The chunks tile every row. */
  lemma ChunkFits(a: nat, k: nat, m: nat, c: nat, l: nat)
    requires a > 0 && m <= k && l <= k - m && c < Pow(a, m)
    ensures c * Pow(a, k - m - l) + Pow(a, k - m - l) <= Pow(a, k - l)
  {
    var w := Pow(a, k - m - l);
    PowAdd(a, m, k - m - l);
    assert Pow(a, k - l) == Pow(a, m) * w;
    MulUpTo(w, c + 1, Pow(a, m));
    assert w * (c + 1) == c * w + w;
  }

  /** A file can be continued from the last row it has. */
  lemma {:induction false} StoredOfRow(f: seq<int> -> int, a: nat, leaves: seq<int>, k: nat, from: nat, l: nat,
                                       last: nat)
    requires |leaves| == Pow(a, k) && from <= l <= last <= k
    ensures Stored(f, a, leaves, k, from, last)
            == Stored(f, a, leaves, k, from, l) + Stored(f, a, Row(f, a, leaves, k, l), k - l, 1, last - l)
    decreases last
  {
    hide Row, HashRow, Pow;
    if l < last {
      StoredOfRow(f, a, leaves, k, from, l, last - 1);
      RowOfRow(f, a, leaves, k, l, last - l);
    }
  }
}
