/** Where the chunks of the parallel tree builder put their pieces of each row. */
module TreeChunks {
  import opened RingMath
  import opened TreeRows

  /** Chunk `c` of Pow(a, m) writes its piece of row `j` here. */
  function Place(a: nat, k: nat, m: nat, from: nat, c: nat, j: nat): nat
    requires m <= k && j <= k - m
  {
    Offset(a, k, from, j) + c * Pow(a, k - m - j)
  }

  ghost predicate HasRow(o: seq<int>, pos: nat, row: seq<int>) {
    pos + |row| <= |o| && o[pos..pos + |row|] == row
  }

  /** A chunk's pieces of the stored rows up to `upTo` are in place. */
  ghost predicate ChunkDone(f: seq<int> -> int, a: nat, chunk: seq<int>, k: nat, m: nat, from: nat, c: nat,
                            upTo: nat, o: seq<int>)
    requires m <= k && |chunk| == Pow(a, k - m) && upTo <= k - m
  {
    forall j :: from <= j <= upTo ==> HasRow(o, Place(a, k, m, from, c, j), Row(f, a, chunk, k - m, j))
  }

  lemma {:induction false} OffsetGrows(a: nat, k: nat, from: nat, l: nat, l': nat)
    requires l <= l' <= k + 1
    ensures Offset(a, k, from, l) <= Offset(a, k, from, l')
    decreases l'
  {
    if l < l' { OffsetGrows(a, k, from, l, l' - 1); }
  }

  lemma PlaceFits(a: nat, k: nat, m: nat, from: nat, c: nat, j: nat)
    requires a > 0 && m <= k && from <= j <= k - m && c < Pow(a, m)
    ensures Offset(a, k, from, j) <= Place(a, k, m, from, c, j)
    ensures Place(a, k, m, from, c, j) + Pow(a, k - m - j) <= Offset(a, k, from, j + 1) <= Offset(a, k, from, k + 1)
  {
    ChunkFits(a, k, m, c, j);
    OffsetGrows(a, k, from, j + 1, k + 1);
  }

  /** No two pieces of any two chunks overlap. */
  lemma PlacesApart(a: nat, k: nat, m: nat, from: nat, c: nat, j: nat, c': nat, j': nat)
    requires a > 0 && m <= k && from <= j <= k - m && from <= j' <= k - m && c < Pow(a, m) && c' < Pow(a, m)
    requires c != c' || j != j'
    ensures
      var x, y := Place(a, k, m, from, c, j), Place(a, k, m, from, c', j');
      x + Pow(a, k - m - j) <= y || y + Pow(a, k - m - j') <= x
  {
    hide Pow, Offset;
    if j < j' {
      PlaceFits(a, k, m, from, c, j);
      PlaceFits(a, k, m, from, c', j');
      OffsetGrows(a, k, from, j + 1, j');
    } else if j' < j {
      PlaceFits(a, k, m, from, c, j);
      PlaceFits(a, k, m, from, c', j');
      OffsetGrows(a, k, from, j' + 1, j);
    } else {
      ApartInRow(Pow(a, k - m - j), c, c');
    }
  }

  lemma ApartInRow(w: nat, c: nat, c': nat)
    requires c != c'
    ensures c * w + w <= c' * w || c' * w + w <= c * w
  {
    MulGap(w, c, c');
    assert w * c == c * w && w * c' == c' * w;
  }

  /** Writing another piece leaves a chunk's pieces alone. */
  lemma OthersKept(f: seq<int> -> int, a: nat, chunk: seq<int>, k: nat, m: nat, from: nat, c: nat, upTo: nat,
                   o: seq<int>, o': seq<int>, c': nat, j': nat)
    requires a > 0 && m <= k && |chunk| == Pow(a, k - m) && upTo <= k - m && c < Pow(a, m) && c' < Pow(a, m)
    requires ChunkDone(f, a, chunk, k, m, from, c, upTo, o) && |o'| == |o|
    requires from <= j' <= k - m && (c' != c || upTo < j')
    requires
      var lo := Place(a, k, m, from, c', j');
      forall p :: 0 <= p < |o| && !(lo <= p < lo + Pow(a, k - m - j')) ==> o'[p] == o[p]
    ensures ChunkDone(f, a, chunk, k, m, from, c, upTo, o')
  {
    hide Row, Pow, Offset, Place;
    forall j | from <= j <= upTo ensures HasRow(o', Place(a, k, m, from, c, j), Row(f, a, chunk, k - m, j)) {
      PlacesApart(a, k, m, from, c, j, c', j');
      var pos, row := Place(a, k, m, from, c, j), Row(f, a, chunk, k - m, j);
      assert HasRow(o, pos, row);
      assert o'[pos..pos + |row|] == o[pos..pos + |row|];
    }
  }

  function ChunkOf(leaves: seq<int>, n: nat, c: nat): (r: seq<int>)
    requires c * n + n <= |leaves|
    ensures |r| == n
  {
    leaves[c * n..c * n + n]
  }

  ghost predicate PieceOk(f: seq<int> -> int, a: nat, leaves: seq<int>, k: nat, m: nat, from: nat, c: nat, j: nat,
                          o: seq<int>)
    requires m <= k && j <= k - m
  {
    && c * Pow(a, k - m) + Pow(a, k - m) <= |leaves|
    && HasRow(o, Place(a, k, m, from, c, j), Row(f, a, ChunkOf(leaves, Pow(a, k - m), c), k - m, j))
  }

  /** All chunks' pieces of a row make the row. */
  lemma PiecesMakeRow(f: seq<int> -> int, a: nat, leaves: seq<int>, k: nat, m: nat, from: nat, j: nat, o: seq<int>)
    requires a > 0 && |leaves| == Pow(a, k) && m <= k && from <= j <= k - m
    requires Offset(a, k, from, k + 1) <= |o|
    requires forall c :: 0 <= c < Pow(a, m) ==> PieceOk(f, a, leaves, k, m, from, c, j, o)
    ensures HasRow(o, Offset(a, k, from, j), Row(f, a, leaves, k, j))
  {
    OffsetGrows(a, k, from, j + 1, k + 1);
    assert Offset(a, k, from, j + 1) == Offset(a, k, from, j) + Pow(a, k - j);
    hide Row, Offset, Pow, PieceOk;
    var row, start := Row(f, a, leaves, k, j), Offset(a, k, from, j);
    forall q | 0 <= q < |row| ensures o[start + q] == row[q] {
      ElementFromPiece(f, a, leaves, k, m, from, j, o, q);
    }
  }

  lemma ElementFromPiece(f: seq<int> -> int, a: nat, leaves: seq<int>, k: nat, m: nat, from: nat, j: nat,
                         o: seq<int>, q: nat)
    requires a > 0 && |leaves| == Pow(a, k) && m <= k && from <= j <= k - m && q < Pow(a, k - j)
    requires forall c :: 0 <= c < Pow(a, m) ==> PieceOk(f, a, leaves, k, m, from, c, j, o)
    ensures Offset(a, k, from, j) + q < |o|
    ensures o[Offset(a, k, from, j) + q] == Row(f, a, leaves, k, j)[q]
  {
    hide Row, Offset, Pow, PieceOk;
    PieceOf(a, k, m, j, q);
    var w := Pow(a, k - m - j);
    var c := q / w;
    assert PieceOk(f, a, leaves, k, m, from, c, j, o);
    OnePiece(f, a, leaves, k, m, from, c, j, o, q, c * w);
  }

  lemma OnePiece(f: seq<int> -> int, a: nat, leaves: seq<int>, k: nat, m: nat, from: nat, c: nat, j: nat, o: seq<int>,
                 q: nat, p: nat)
    requires a > 0 && |leaves| == Pow(a, k) && m <= k && from <= j <= k - m && c < Pow(a, m)
    requires PieceOk(f, a, leaves, k, m, from, c, j, o)
    requires p == c * Pow(a, k - m - j) && p <= q < p + Pow(a, k - m - j)
    ensures q < Pow(a, k - j) && Offset(a, k, from, j) + q < |o|
    ensures o[Offset(a, k, from, j) + q] == Row(f, a, leaves, k, j)[q]
  {
    hide Row, Offset, Pow;
    RowOfChunk(f, a, leaves, k, m, c, j, ChunkOf(leaves, Pow(a, k - m), c), c * Pow(a, k - m), p);
    PieceElement(o, Row(f, a, leaves, k, j), Offset(a, k, from, j), p, Pow(a, k - m - j), q);
  }

  lemma PieceElement(o: seq<int>, row: seq<int>, start: nat, p: nat, w: nat, q: nat)
    requires p <= q < p + w <= |row| && HasRow(o, start + p, row[p..p + w])
    ensures start + q < |o| && o[start + q] == row[q]
  {
    assert o[start + p..start + p + w][q - p] == row[p..p + w][q - p];
  }

  lemma PieceOf(a: nat, k: nat, m: nat, j: nat, q: nat)
    requires a > 0 && m <= k && j <= k - m && q < Pow(a, k - j)
    ensures Pow(a, k - m - j) > 0
    ensures
      var w := Pow(a, k - m - j);
      q / w < Pow(a, m) && q / w * w <= q < q / w * w + w
  {
    PowAdd(a, m, k - m - j);
    hide Pow;
    DivBound(q, Pow(a, k - m - j), Pow(a, m));
  }

  lemma DivBound(q: nat, w: nat, n: nat)
    requires w > 0 && q < n * w
    ensures q / w < n && q / w * w <= q < q / w * w + w
  {
    var d := q / w;
    assert q == w * d + q % w;
    MulGap(w, d, n);
    assert n * w == w * n && d * w == w * d;
  }

  /** Rows in place, one after the other, are the stored tree. */
  lemma {:induction false} RowsMakeStored(f: seq<int> -> int, a: nat, leaves: seq<int>, k: nat, from: nat, upTo: nat,
                                          o: seq<int>)
    requires |leaves| == Pow(a, k) && upTo <= k && Offset(a, k, from, k + 1) <= |o|
    requires forall j :: from <= j <= upTo ==> HasRow(o, Offset(a, k, from, j), Row(f, a, leaves, k, j))
    ensures Offset(a, k, from, upTo + 1) <= |o|
    ensures o[..Offset(a, k, from, upTo + 1)] == Stored(f, a, leaves, k, from, upTo)
    decreases upTo
  {
    hide Row, Stored, Offset, Pow;
    OffsetGrows(a, k, from, upTo + 1, k + 1);
    if from <= upTo {
      StoredOneMore(f, a, leaves, k, from, upTo);
      if upTo > 0 {
        RowsMakeStored(f, a, leaves, k, from, upTo - 1, o);
      }
      assert HasRow(o, Offset(a, k, from, upTo), Row(f, a, leaves, k, upTo));
      assert o[..Offset(a, k, from, upTo + 1)]
          == o[..Offset(a, k, from, upTo)] + o[Offset(a, k, from, upTo)..Offset(a, k, from, upTo + 1)];
    } else {
      NothingStored(f, a, leaves, k, from, upTo);
    }
  }

  lemma NothingStored(f: seq<int> -> int, a: nat, leaves: seq<int>, k: nat, from: nat, upTo: nat)
    requires |leaves| == Pow(a, k) && upTo < from && upTo <= k
    ensures Offset(a, k, from, upTo + 1) == 0 && Stored(f, a, leaves, k, from, upTo) == []
  {
  }

  lemma StoredOneMore(f: seq<int> -> int, a: nat, leaves: seq<int>, k: nat, from: nat, upTo: nat)
    requires |leaves| == Pow(a, k) && from <= upTo <= k
    ensures Offset(a, k, from, upTo + 1) == Offset(a, k, from, upTo) + Pow(a, k - upTo)
    ensures upTo == 0 ==> Offset(a, k, from, upTo) == 0
    ensures Stored(f, a, leaves, k, from, upTo)
            == (if upTo == 0 then [] else Stored(f, a, leaves, k, from, upTo - 1)) + Row(f, a, leaves, k, upTo)
  {
  }

  /** The rows from `l` up are as long as a tree built on row `l`, row `l` included. */
  lemma {:induction false} TopSize(a: nat, k: nat, from: nat, l: nat, last: nat)
    requires from <= l <= last <= k
    ensures Offset(a, k, from, last + 1)
            == Offset(a, k, from, l) + Offset(a, k - l + 1, 1, last - l + 2)
    decreases last
  {
    if l < last { TopSize(a, k, from, l, last - 1); }
    else { assert Offset(a, k - l + 1, 1, 1) == 0; }
  }

  /** A place that belongs to one chunk. */
  ghost predicate Mine(a: nat, k: nat, m: nat, from: nat, c: nat, p: int)
    requires m <= k
  {
    exists j: nat :: from <= j <= k - m && Place(a, k, m, from, c, j) <= p < Place(a, k, m, from, c, j) + Pow(a,
          k - m - j)
  }

  /** A chunk has written in its own places only. */
  ghost predicate OnlyMine(now: seq<int>, before: seq<int>, a: nat, k: nat, m: nat, from: nat, c: nat)
    requires m <= k
  {
    |now| == |before| && forall p :: 0 <= p < |now| && !Mine(a, k, m, from, c, p) ==> now[p] == before[p]
  }

  lemma OnlyMineAgain(s1: seq<int>, s2: seq<int>, s0: seq<int>, a: nat, k: nat, m: nat, from: nat, c: nat)
    requires m <= k && OnlyMine(s2, s1, a, k, m, from, c) && OnlyMine(s1, s0, a, k, m, from, c)
    ensures OnlyMine(s2, s0, a, k, m, from, c)
  {
    hide Mine;
  }

  lemma OnlyMineNothing(s: seq<int>, a: nat, k: nat, m: nat, from: nat, c: nat)
    requires m <= k
    ensures OnlyMine(s, s, a, k, m, from, c)
  {
    hide Mine;
  }

  /** The places of two chunks are disjoint. */
  lemma NotBoth(a: nat, k: nat, m: nat, from: nat, c: nat, c': nat, p: int)
    requires a > 0 && m <= k && c < Pow(a, m) && c' < Pow(a, m) && c != c'
    ensures !(Mine(a, k, m, from, c, p) && Mine(a, k, m, from, c', p))
  {
    hide Pow, Place;
    if Mine(a, k, m, from, c, p) && Mine(a, k, m, from, c', p) {
      var j: nat :| from <= j <= k - m && Place(a, k, m, from, c, j) <= p < Place(a, k, m, from, c, j) + Pow(a,
            k - m - j);
      var j': nat :| from <= j' <= k - m
        && Place(a, k, m, from, c', j') <= p < Place(a, k, m, from, c', j') + Pow(a, k - m - j');
      PlacesApart(a, k, m, from, c, j, c', j');
    }
  }

  /** Whatever another chunk writes, a finished chunk stays finished. */
  lemma ChunkKept(f: seq<int> -> int, a: nat, chunk: seq<int>, k: nat, m: nat, from: nat, c: nat,
                  o: seq<int>, o': seq<int>, c': nat)
    requires a > 0 && m <= k && |chunk| == Pow(a, k - m) && c < Pow(a, m) && c' < Pow(a, m) && c != c'
    requires ChunkDone(f, a, chunk, k, m, from, c, k - m, o) && OnlyMine(o', o, a, k, m, from, c')
    ensures ChunkDone(f, a, chunk, k, m, from, c, k - m, o')
  {
    hide Row, Pow, Place;
    forall j | from <= j <= k - m ensures HasRow(o', Place(a, k, m, from, c, j), Row(f, a, chunk, k - m, j)) {
      var pos, row := Place(a, k, m, from, c, j), Row(f, a, chunk, k - m, j);
      assert HasRow(o, pos, row);
      forall p | pos <= p < pos + |row| ensures o'[p] == o[p] {
        assert Mine(a, k, m, from, c, p);
        NotBoth(a, k, m, from, c, c', p);
      }
      assert o'[pos..pos + |row|] == o[pos..pos + |row|];
    }
  }

  /** Where a chunk's share of the hashes of `n` nodes starts. */
  function ShareStart(c: nat, n: nat, a: nat): (r: nat)
    requires a > 0
  {
    DivNat(c * n, a);
    c * n / a
  }

  lemma DivNat(x: nat, a: nat)
    requires a > 0
    ensures x / a >= 0
  {
    SlotIsMod(x, a);
  }

  /** The first place of the next row's piece, from the pieces' sizes. */
  lemma NextPlace(a: nat, k: nat, m: nat, from: nat, c: nat, l: nat)
    requires a > 0 && m <= k && l < k - m
    ensures ShareStart(c, Pow(a, k - m - l), a) == c * Pow(a, k - m - l - 1)
    ensures Place(a, k, m, from, c, l + 1) == Offset(a, k, from, l + 1) + ShareStart(c, Pow(a, k - m - l), a)
  {
    var w := Pow(a, k - m - l - 1);
    TimesSwap(a, c, w);
    EuclidUnique(c * Pow(a, k - m - l), a, c * w, 0);
  }

  /** m levels are left to the top: the chunks are as many as the least positive power of the arity that
    * gives each thread of the pool four of them.
    */
  ghost predicate TopLevels(a: nat, poolSize: nat, m: nat) {
    m >= 1 && Pow(a, m) >= 4 * poolSize && forall j :: 1 <= j < m ==> Pow(a, j) < 4 * poolSize
  }

  lemma TopLevelsPositive(a: nat, poolSize: nat, m: nat)
    requires TopLevels(a, poolSize, m)
    ensures m >= 1
  {
  }

  /** There is exactly one such number of levels. */
  lemma TopLevelsExist(a: nat, poolSize: nat) returns (m: nat)
    requires a >= 2
    ensures TopLevels(a, poolSize, m) && forall other :: TopLevels(a, poolSize, other) ==> other == m
  {
    m := 1;
    while Pow(a, m) < 4 * poolSize
      invariant m >= 1 && forall j :: 1 <= j < m ==> Pow(a, j) < 4 * poolSize
      decreases 4 * poolSize - Pow(a, m)
    {
      PowUp(a, m);
      m := m + 1;
    }
  }

  lemma PowUp(a: nat, m: nat)
    requires a >= 2
    ensures Pow(a, m + 1) == Pow(a, m) * a > Pow(a, m)
  {
    MulGap(Pow(a, m), 1, a);
  }

  /** Pieces of all stored rows up to the chunks' own height make those rows. */
  lemma ChunksMakeStored(f: seq<int> -> int, a: nat, leaves: seq<int>, k: nat, m: nat, from: nat, o: seq<int>)
    requires a > 0 && |leaves| == Pow(a, k) && m <= k && Offset(a, k, from, k + 1) <= |o|
    requires forall c :: 0 <= c < Pow(a, m) ==> AllPieces(f, a, leaves, k, m, from, c, o)
    ensures Offset(a, k, from, k - m + 1) <= |o|
    ensures o[..Offset(a, k, from, k - m + 1)] == Stored(f, a, leaves, k, from, k - m)
    ensures from <= k - m ==> HasRow(o, Offset(a, k, from, k - m), Row(f, a, leaves, k, k - m))
  {
    hide Row, Stored, Offset, Pow;
    forall j | from <= j <= k - m ensures HasRow(o, Offset(a, k, from, j), Row(f, a, leaves, k, j)) {
      forall c | 0 <= c < Pow(a, m) ensures PieceOk(f, a, leaves, k, m, from, c, j, o) {
        assert AllPieces(f, a, leaves, k, m, from, c, o);
      }
      PiecesMakeRow(f, a, leaves, k, m, from, j, o);
    }
    RowsMakeStored(f, a, leaves, k, from, k - m, o);
  }

  ghost predicate AllPieces(f: seq<int> -> int, a: nat, leaves: seq<int>, k: nat, m: nat, from: nat, c: nat,
                            o: seq<int>)
    requires m <= k
  {
    && c * Pow(a, k - m) + Pow(a, k - m) <= |leaves|
    && ChunkDone(f, a, ChunkOf(leaves, Pow(a, k - m), c), k, m, from, c, k - m, o)
  }

  /** The top tree starts at the chunks' last row, counted from the end of the file; with no such row
    * the subtraction goes below zero.
    */
  lemma TopStart(a: nat, k: nat, m: nat, from: nat)
    requires a >= 2 && m <= k
    ensures from <= k - m ==>
      Offset(a, k, from, k + 1) - Offset(a, m + 1, 1, m + 2) == Offset(a, k, from, k - m)
    ensures k - m < from ==> Offset(a, k, from, k + 1) < Offset(a, m + 1, 1, m + 2)
  {
    if from <= k - m {
      TopSize(a, k, from, k - m, k);
    } else {
      TopSize(a, k, k - m, k - m, k);
      OffsetLater(a, k, k - m, from);
    }
  }

  /** A file that starts later is shorter. */
  lemma OffsetLater(a: nat, k: nat, from: nat, later: nat)
    requires a >= 2 && from < later && from <= k
    ensures Offset(a, k, later, k + 1) < Offset(a, k, from, k + 1)
    decreases k + 1 - from
  {
    StartLater(a, k, from, later, k + 1);
  }

  lemma {:induction false} StartLater(a: nat, k: nat, from: nat, later: nat, last: nat)
    requires a >= 2 && from < later && from < last <= k + 1
    ensures Offset(a, k, later, last) < Offset(a, k, from, last)
    decreases last
  {
    if from + 1 < last { StartLater(a, k, from, later, last - 1); }
  }

  lemma {:induction false} RestSize(a: nat, k: nat, from: nat, l: nat, last: nat)
    requires from <= l <= last <= k
    ensures Offset(a, k, from, last + 1) == Offset(a, k, from, l + 1) + Offset(a, k - l, 1, last - l + 1)
    decreases last
  {
    if l < last { RestSize(a, k, from, l, last - 1); }
    else { assert Offset(a, k - l, 1, 1) == 0; }
  }

  /** Chunks' rows and the top tree over the last of them make the whole file. */
  lemma TopCompletes(f: seq<int> -> int, a: nat, leaves: seq<int>, k: nat, m: nat, from: nat, o: seq<int>, o': seq<int>)
    requires a >= 2 && |leaves| == Pow(a, k) && 1 <= m <= k && from <= k - m && |o'| == |o|
    requires Offset(a, k, from, k + 1) <= |o| && Offset(a, k, from, k - m + 1) <= |o|
    requires o[..Offset(a, k, from, k - m + 1)] == Stored(f, a, leaves, k, from, k - m)
    requires o'[..Offset(a, k, from, k - m + 1)] == o[..Offset(a, k, from, k - m + 1)]
    requires HasRow(o', Offset(a, k, from, k - m + 1), Stored(f, a, Row(f, a, leaves, k, k - m), m, 1, m))
    ensures o'[..Offset(a, k, from, k + 1)] == Stored(f, a, leaves, k, from, k)
    ensures Row(f, a, Row(f, a, leaves, k, k - m), m, m) == Row(f, a, leaves, k, k)
  {
    hide Row, Stored, Offset, Pow;
    var row, done := Row(f, a, leaves, k, k - m), Offset(a, k, from, k - m + 1);
    StoredOfRow(f, a, leaves, k, from, k - m, k);
    RowOfRow(f, a, leaves, k, k - m, m);
    StoredSize(f, a, row, m, 1, m);
    RestSize(a, k, from, k - m, k);
    assert o'[..Offset(a, k, from, k + 1)] == o'[..done] + o'[done..Offset(a, k, from, k + 1)];
  }

  /** The top's start is computed with the default size, so a build that is told to discard nothing finds
    * its chunks' last row only if its builder would discard nothing anyway.
    */
  lemma NoDiscardStart(a: nat, k: nat, m: nat, discardRows: nat)
    requires a >= 2 && 1 <= m <= k - 1 && discardRows <= k
    ensures Offset(a, k, discardRows + 1, k + 1) - Offset(a, m + 1, 1, m + 2) == Offset(a, k, 1, k - m)
            <==> discardRows == 0
  {
    TopStart(a, k, m, 1);
    if discardRows > 0 { StartLater(a, k, 1, discardRows + 1, k + 1); }
  }
}
