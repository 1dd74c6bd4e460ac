/** The writes of PC2 tile each tree file and put into it what the CPU builder would. */
module Pc2Writes {
  import opened RingMath
  import opened TreeRows
  import opened TreeChunks
  import TreeProofs
  import opened Pc2Tree
  import opened Pc2Blocks
  import opened Pc2Files
  import opened Pc2Places

  /** The buffers of a run: hashed columns and leaves by stream and batch, and what the streams left. */
  datatype Run = Run(columns: (nat, nat) -> seq<int>, leaf: nat -> (int -> seq<int>), input: seq<int>)

  ghost predicate RunOk(u: Setup, f: seq<int> -> int, rows: seq<seq<int>>, from: nat, run: Run) {
    && RowsOk(u, rows) && Stashed(u, f, rows, run.input)
    && (forall r: nat :: r < u.streams ==> LeavesOk(u, f, rows, r, run.leaf(r)))
    && (from == 0 ==> forall r: nat, n: nat :: r < u.streams && n < Groups(u, 1) ==> ColumnsOk(u, rows, r, n,
          run.columns(r, n)))
  }

  ghost predicate ColumnsOk(u: Setup, rows: seq<seq<int>>, r: nat, n: nat, block: seq<int>)
    requires RowsOk(u, rows)
  {
    && |block| == u.sectors * (u.arity * u.group)
    && u.arity * Base(u, r, 1, n) + u.arity * u.group <= Pow(u.arity, u.Levels())
    && forall s, k :: 0 <= s < u.sectors && 0 <= k < u.arity * u.group ==>
         At(block, u.arity * u.group, s, k) == rows[s][u.arity * Base(u, r, 1, n) + k]
  }

  /** What a write's buffer holds, for all sectors. */
  function Block(u: Setup, f: seq<int> -> int, run: Run, j: Job): seq<int>
    requires u.Ok()
  {
    match j
    case Columns(r, n) => run.columns(r, n)
    case Part(r, l, n) => Merkle(StreamTree(u, f, run.leaf(r)), l, n)
    case Top(l, x) =>
      seq(u.sectors, s requires 0 <= s < u.sectors => Merkle(CpuTree(u, f, run.input, s), l, x))
  }

  /** What a write takes from its buffer for one sector. */
  function Share(u: Setup, s: nat, j: Job, block: seq<int>): (d: seq<int>)
    ensures |d| == Count(u, j)
  {
    seq(Count(u, j), i requires 0 <= i < Count(u, j) => At(block, Count(u, j), s, i))
  }

  /** A write puts into its row what belongs there. */
  lemma WrittenRight(u: Setup, f: seq<int> -> int, rows: seq<seq<int>>, pl: Places, run: Run, s: nat, j: Job)
    requires RunOk(u, f, rows, pl.skip, run) && s < u.sectors && Valid(u, pl.skip, j) && PlacesOk(u, pl)
    ensures RowOf(u, j) <= u.Levels()
    ensures Start(u, pl.skip, j) + Count(u, j) <= Pow(u.arity, u.Levels() - RowOf(u, j))
    ensures
      var at := Start(u, pl.skip, j);
      Share(u, s, j, Block(u, f, run, j))
      == Row(f, u.arity, rows[s], u.Levels(), RowOf(u, j))[at..at + Count(u, j)]
  {
    hide Row, Pow, Offset, Groups, Merkle, Base, BatchStart, Stashed, Pos, PlacesOk, PlacesHave, BlockOk, LeavesOk, At;
    PosIsPlace(u, pl, j);
    match j
    case Columns(r, n) =>
      BatchStartIs(u, r, n);
      assert ColumnsOk(u, rows, r, n, run.columns(r, n));
      ColumnsShare(u, f, rows, r, n, run.columns(r, n), s);
    case Part(r, l, n) =>
      StreamBlocks(u, f, rows, r, run.leaf(r), l, n);
      PartRight(u, f, rows, r, l, n, Block(u, f, run, j), s, Share(u, s, j, Block(u, f, run, j)));
    case Top(l, x) =>
      CpuNodes(u, f, rows, run.input, s, l, x);
      TopShare(u, s, j, Block(u, f, run, j));
  }

  lemma ColumnsShare(u: Setup, f: seq<int> -> int, rows: seq<seq<int>>, r: nat, n: nat, block: seq<int>, s: nat)
    requires RowsOk(u, rows) && r < u.streams && n < Groups(u, 1) && s < u.sectors && ColumnsOk(u, rows, r, n, block)
    ensures
      var at := u.arity * Base(u, r, 1, n);
      && at + u.arity * u.group <= Pow(u.arity, u.Levels())
      && Share(u, s, Columns(r, n), block)
         == Row(f, u.arity, rows[s], u.Levels(), 0)[at..at + u.arity * u.group]
  {
    hide Pow, Groups, Base;
    FirstRow(f, u.arity, rows[s], u.Levels());
  }

  lemma TopShare(u: Setup, s: nat, j: Job, block: seq<int>)
    requires j.Top? && s < |block|
    ensures Share(u, s, j, block) == [block[s]]
  {
    assert s * 1 + 0 == s;
  }

  lemma PartRight(u: Setup, f: seq<int> -> int, rows: seq<seq<int>>, r: nat, l: nat, n: nat, block: seq<int>, s: nat,
                  d: seq<int>)
    requires RowsOk(u, rows) && 1 <= l <= u.height + 1 && r < u.streams && n < Groups(u, l) && s < u.sectors
    requires BlockOk(u, f, rows, r, l, n, block) && |d| == u.group
    requires forall i :: 0 <= i < u.group ==> d[i] == At(block, u.group, s, i)
    ensures Base(u, r, l, n) + u.group <= Pow(u.arity, u.Levels() - l)
    ensures d == Row(f, u.arity, rows[s], u.Levels(), l)[Base(u, r, l, n)..Base(u, r, l, n) + u.group]
  {
    hide Row, Pow, Groups, Base;
    BaseFits(u, r, l, n);
    var row, b := Row(f, u.arity, rows[s], u.Levels(), l), Base(u, r, l, n);
    forall i | 0 <= i < u.group ensures d[i] == row[b + i] {
      assert At(block, u.group, s, i) == row[b + i];
    }
    RunIs(row, b, u.group, d);
  }

  /** A file after a write. */
  function Put(file: seq<int>, pos: int, data: seq<int>): (r: seq<int>)
    ensures |r| == |file|
  {
    seq(|file|, p requires 0 <= p < |file| => if pos <= p < pos + |data| then data[p - pos] else file[p])
  }

  datatype Kind = TreeC | TreeR

  /** A buffer on its way to the files of one partition: one run of nodes for each sector. */
  datatype Write = Write(part: nat, kind: Kind, job: Job, pos: int, data: seq<int>)

  /** The write that a job asks for. */
  function Intended(u: Setup, pl: Places, f: seq<int> -> int, run: Run, part: nat, kind: Kind, j: Job): Write
    requires u.Ok() && PlacesHave(u, pl, j)
  {
    Write(part, kind, j, Pos(u, pl, j), Block(u, f, run, j))
  }

  /** How often a job's write is in a log. */
  function Times(log: seq<Write>, part: nat, kind: Kind, j: Job): nat {
    if log == [] then 0
    else
      var w := log[|log| - 1];
      Times(log[..|log| - 1], part, kind, j) + if w.part == part && w.kind == kind && w.job == j then 1 else 0
  }

  lemma {:induction false} TimesFound(log: seq<Write>, part: nat, kind: Kind, j: Job)
    requires Times(log, part, kind, j) > 0
    ensures exists i :: 0 <= i < |log| && log[i].part == part && log[i].kind == kind && log[i].job == j
  {
    var n := |log| - 1;
    if log[n].part != part || log[n].kind != kind || log[n].job != j {
      TimesFound(log[..n], part, kind, j);
      var i :| 0 <= i < n && log[..n][i].part == part && log[..n][i].kind == kind && log[..n][i].job == j;
      assert log[i].part == part && log[i].kind == kind && log[i].job == j;
    }
  }

  /** All of a file's writes in a log are intended, and each intended one is there exactly once. */
  ghost predicate Complete(u: Setup, pl: Places, f: seq<int> -> int, run: Run, part: nat, kind: Kind, log: seq<Write>)
    requires u.Ok()
  {
    && (forall w :: w in log && w.part == part && w.kind == kind ==> IsIntended(u, pl, f, run, w))
    && (forall j :: Valid(u, pl.skip, j) ==> Times(log, part, kind, j) == 1)
  }

  ghost predicate IsIntended(u: Setup, pl: Places, f: seq<int> -> int, run: Run, w: Write)
    requires u.Ok()
  {
    && Valid(u, pl.skip, w.job) && PlacesHave(u, pl, w.job)
    && w == Intended(u, pl, f, run, w.part, w.kind, w.job)
  }

  /** A sector's file after a log of writes, in whatever order they reach the disk. */
  function PutAll(u: Setup, part: nat, kind: Kind, s: nat, file: seq<int>, log: seq<Write>): (r: seq<int>)
    ensures |r| == |file|
  {
    if log == [] then file
    else
      var w := log[|log| - 1];
      var before := PutAll(u, part, kind, s, file, log[..|log| - 1]);
      if w.part == part && w.kind == kind then Put(before, w.pos, Share(u, s, w.job, w.data)) else before
  }

  ghost predicate RightAt(u: Setup, f: seq<int> -> int, rows: seq<seq<int>>, from: nat, s: nat, file: seq<int>, p: nat)
    requires RowsOk(u, rows) && s < u.sectors
  {
    var k := u.Levels();
    && from <= k && p < |file| && p < Offset(u.arity, k, from, k + 1)
    && var l := FindRow(u.arity, k, from, p, k);
    InRow(u, from, p, l);
    file[p] == Row(f, u.arity, rows[s], k, l)[p - Offset(u.arity, k, from, l)]
  }

  lemma InRow(u: Setup, from: nat, p: nat, l: nat)
    requires from <= l <= u.Levels()
    requires Offset(u.arity, u.Levels(), from, l) <= p < Offset(u.arity, u.Levels(), from, l + 1)
    ensures p - Offset(u.arity, u.Levels(), from, l) < Pow(u.arity, u.Levels() - l)
  {
  }

  /** What a write covers is right after it. */
  lemma PutRight(u: Setup, f: seq<int> -> int, rows: seq<seq<int>>, pl: Places, run: Run, s: nat, j: Job,
                 file: seq<int>, p: nat)
    requires RunOk(u, f, rows, pl.skip, run) && s < u.sectors && PlacesOk(u, pl) && Covers(u, pl, j, p) && p < |file|
    ensures RightAt(u, f, rows, pl.skip, s, Put(file, Pos(u, pl, j), Share(u, s, j, Block(u, f, run, j))), p)
  {
    hide Row, Pow, Pos, Share, Block, RunOk, Start, Offset, AddressOk, TableOk;
    assert RowsOk(u, rows) by { RowsOfRun(u, f, rows, pl.skip, run); }
    WrittenRight(u, f, rows, pl, run, s, j);
    PosIsPlace(u, pl, j);
    var k, l, from := u.Levels(), RowOf(u, j), pl.skip;
    OffsetUp(u.arity, k, from, l);
    OffsetGrows(u.arity, k, from, l + 1, k + 1);
    RowFound(u.arity, k, from, p, k, l);
    var pos, d, start, row := Pos(u, pl, j), Share(u, s, j, Block(u, f, run, j)), Start(u, from, j),
      Row(f, u.arity, rows[s], k, l);
    assert d[p - pos] == row[start..start + Count(u, j)][p - pos] == row[start + (p - pos)];
    assert Put(file, pos, d)[p] == d[p - pos];
  }

  lemma RowsOfRun(u: Setup, f: seq<int> -> int, rows: seq<seq<int>>, from: nat, run: Run)
    requires RunOk(u, f, rows, from, run)
    ensures RowsOk(u, rows)
  {
  }

  lemma {:induction false} RowFound(a: nat, k: nat, from: nat, p: nat, top: nat, l: nat)
    requires from <= l <= top <= k && Offset(a, k, from, l) <= p < Offset(a, k, from, l + 1)
    ensures p < Offset(a, k, from, top + 1) && FindRow(a, k, from, p, top) == l
    decreases top
  {
    OffsetGrows(a, k, from, l + 1, top + 1);
    if l < top {
      OffsetGrows(a, k, from, l + 1, top);
      RowFound(a, k, from, p, top - 1, l);
    }
  }

  /** A position that some write of the log covers is right in the end. */
  lemma {:induction false} LogRight(u: Setup, f: seq<int> -> int, rows: seq<seq<int>>, pl: Places, run: Run, part: nat,
                                    kind: Kind, s: nat, file: seq<int>, log: seq<Write>, p: nat, n: nat)
    requires RunOk(u, f, rows, pl.skip, run) && s < u.sectors && PlacesOk(u, pl) && p < |file| && n < |log|
    requires forall w :: w in log && w.part == part && w.kind == kind ==> IsIntended(u, pl, f, run, w)
    requires log[n].part == part && log[n].kind == kind && Covers(u, pl, log[n].job, p)
    ensures RightAt(u, f, rows, pl.skip, s, PutAll(u, part, kind, s, file, log), p)
    decreases |log|
  {
    hide Row, Pow, Pos, Share, Block, RunOk, RightAt, PlacesOk, Valid;
    RowsOfRun(u, f, rows, pl.skip, run);
    var last := log[|log| - 1];
    var before := PutAll(u, part, kind, s, file, log[..|log| - 1]);
    if last.part == part && last.kind == kind && Covers(u, pl, last.job, p) {
      assert IsIntended(u, pl, f, run, last);
      PutRight(u, f, rows, pl, run, s, last.job, before, p);
    } else {
      LogRight(u, f, rows, pl, run, part, kind, s, file, log[..|log| - 1], p, n);
      if last.part == part && last.kind == kind {
        assert IsIntended(u, pl, f, run, last);
        StaysRight(u, f, rows, pl.skip, s, before, Put(before, last.pos, Share(u, s, last.job, last.data)), p);
      }
    }
  }

  lemma StaysRight(u: Setup, f: seq<int> -> int, rows: seq<seq<int>>, from: nat, s: nat, file: seq<int>,
                   file': seq<int>, p: nat)
    requires RowsOk(u, rows) && s < u.sectors && RightAt(u, f, rows, from, s, file, p)
    requires |file'| == |file| && file'[p] == file[p]
    ensures RightAt(u, f, rows, from, s, file', p)
  {
  }

  /** Main result: a log with each of a file's writes leaves the file the CPU builder stores in every
    * sector, whatever order the writes reach the disk in.
    */
  lemma FileComplete(u: Setup, f: seq<int> -> int, rows: seq<seq<int>>, pl: Places, run: Run, part: nat, kind: Kind,
                     s: nat, file: seq<int>, log: seq<Write>, order: seq<Write>)
    requires RunOk(u, f, rows, pl.skip, run) && s < u.sectors && PlacesOk(u, pl) && pl.skip != 1
    requires |file| == Offset(u.arity, u.Levels(), pl.skip, u.Levels() + 1)
    requires Complete(u, pl, f, run, part, kind, log) && multiset(order) == multiset(log)
    ensures PutAll(u, part, kind, s, file, order) == Stored(f, u.arity, rows[s], u.Levels(), pl.skip, u.Levels())
  {
    hide Row, Pow, Pos, Share, Block, RunOk, RightAt, Stored, PutAll, Valid, PlacesOk, IsIntended, Times;
    RowsOfRun(u, f, rows, pl.skip, run);
    var k, from, out := u.Levels(), pl.skip, PutAll(u, part, kind, s, file, order);
    var stored := Stored(f, u.arity, rows[s], k, from, k);
    StoredSize(f, u.arity, rows[s], k, from, k);
    forall w | w in order && w.part == part && w.kind == kind ensures IsIntended(u, pl, f, run, w) {
      assert w in multiset(order);
      assert w in log;
    }
    forall p: nat | p < |file| ensures out[p] == stored[p] {
      Covered(u, pl, p);
      var l := FindRow(u.arity, k, from, p, k);
      var j := JobOf(u, l, p - Offset(u.arity, k, from, l));
      IsValid(u, pl, j, p);
      TimesFound(log, part, kind, j);
      var i :| 0 <= i < |log| && log[i].part == part && log[i].kind == kind && log[i].job == j;
      assert log[i] in multiset(log);
      var n :| 0 <= n < |order| && order[n] == log[i];
      LogRight(u, f, rows, pl, run, part, kind, s, file, order, p, n);
      RightIsStored(u, f, rows, from, s, out, p);
    }
  }

  lemma IsValid(u: Setup, pl: Places, j: Job, p: int)
    requires Covers(u, pl, j, p)
    ensures Valid(u, pl.skip, j)
  {
  }

  lemma RightIsStored(u: Setup, f: seq<int> -> int, rows: seq<seq<int>>, from: nat, s: nat, file: seq<int>, p: nat)
    requires RowsOk(u, rows) && s < u.sectors && RightAt(u, f, rows, from, s, file, p)
    ensures p < |Stored(f, u.arity, rows[s], u.Levels(), from, u.Levels())|
    ensures file[p] == Stored(f, u.arity, rows[s], u.Levels(), from, u.Levels())[p]
  {
    var k := u.Levels();
    var l := FindRow(u.arity, k, from, p, k);
    TreeProofs.StoredHasRow(f, u.arity, rows[s], k, from, k, l);
    InRow(u, from, p, l);
    hide Row, Stored, Offset, Pow;
    var stored, row, pos := Stored(f, u.arity, rows[s], k, from, k), Row(f, u.arity, rows[s], k, l), Offset(u.arity,
          k, from, l);
    assert stored[pos..pos + |row|][p - pos] == row[p - pos];
  }

  lemma Slots(w: nat, r: nat, n: nat)
    requires r < n
    ensures 0 <= r * w <= (r + 1) * w == r * w + w <= n * w
    ensures n * w == (n - 1) * w + w
  {
    MulUpTo(w, r + 1, n);
    assert (r + 1) * w == w * (r + 1) && n * w == w * n;
  }

  /** The part of the results that a stream's last buffer is copied to. */
  function Slice(u: Setup, results: seq<int>, r: nat): seq<int> {
    var stride := u.sectors * u.group;
    if 0 <= r * stride <= (r + 1) * stride <= |results| then results[r * stride..(r + 1) * stride] else []
  }

  /** Root buffers in every stream's place are what the CPU needs. */
  lemma ResultsStashed(u: Setup, f: seq<int> -> int, rows: seq<seq<int>>, leaf: nat -> (int -> seq<int>),
                       results: seq<int>)
    requires RowsOk(u, rows) && |results| == u.streams * (u.sectors * u.group)
    requires forall r: nat :: r < u.streams ==>
      && LeavesOk(u, f, rows, r, leaf(r))
      && Slice(u, results, r) == Merkle(StreamTree(u, f, leaf(r)), u.height + 1, 0)
    ensures Stashed(u, f, rows, results)
  {
    hide Pow, Groups, BlockOk, LeavesOk, Merkle, Row;
    LastRow(u);
    forall r: nat | r < u.streams ensures SlotOk(u, f, rows, results, r) {
      Slots(u.sectors * u.group, r, u.streams);
      StreamBlocks(u, f, rows, r, leaf(r), u.height + 1, 0);
    }
  }

  /** The run of one partition of tree C, from what the reader loads for each batch. */
  function TreeCRun(u: Setup, f: seq<int> -> int, colHash: seq<int> -> int, layers: nat,
                    data: (nat, nat) -> seq<int>, input: seq<int>): Run
    requires u.Ok()
  {
    Run((r: nat, n: nat) => if u.Ok() then ColumnBlock(u, colHash, layers, data(r, n)) else [],
        (r: nat) => (n: int) =>
          if n >= 0 && u.Ok() then HashPacked(u, f, ColumnBlock(u, colHash, layers, data(r, n))) else [],
        input)
  }

  /** The run of one partition of tree R, from the encoded replica. */
  function TreeRRun(u: Setup, f: seq<int> -> int, data: (nat, nat) -> seq<int>, input: seq<int>): Run
    requires u.Ok()
  {
    Run((r: nat, n: nat) => [],
        (r: nat) => (n: int) => if n >= 0 && u.Ok() then HashStrided(u, f, data(r, n)) else [],
        input)
  }

  /** Every stream's root buffer is in its place among the results. */
  ghost predicate RootsIn(u: Setup, f: seq<int> -> int, run: Run) {
    && |run.input| == u.streams * (u.sectors * u.group)
    && forall r: nat :: r < u.streams ==>
      Slice(u, run.input, r) == Merkle(StreamTree(u, f, run.leaf(r)), u.height + 1, 0)
  }

  /** Every batch was loaded from its place in the partition that starts at `first`. */
  ghost predicate AllLoaded(u: Setup, labels: (nat, nat, nat) -> int, layers: nat, first: nat, data: (nat,
        nat) -> seq<int>)
  {
    forall r: nat, n: nat :: r < u.streams && n < Groups(u, 1) ==>
      Loaded(data(r, n), labels, layers, u.arity * u.group, u.sectors, first + BatchStart(u, r, n))
  }

  function ColumnRows(u: Setup, colHash: seq<int> -> int, layers: nat, labels: (nat, nat, nat) -> int,
                      first: nat): (rows: seq<seq<int>>)
    ensures |rows| == u.sectors
    ensures forall s :: 0 <= s < u.sectors ==> |rows[s]| == Pow(u.arity, u.Levels())
  {
    seq(u.sectors, s requires 0 <= s < u.sectors => ColumnRow(u, colHash, layers, labels, first, s))
  }

  lemma ColumnsRight(u: Setup, colHash: seq<int> -> int, layers: nat, labels: (nat, nat, nat) -> int, first: nat,
                     data: seq<int>, r: nat, n: nat)
    requires u.Ok() && r < u.streams && n < Groups(u, 1)
    requires Loaded(data, labels, layers, u.arity * u.group, u.sectors, first + BatchStart(u, r, n))
    ensures ColumnsOk(u, ColumnRows(u, colHash, layers, labels, first), r, n, ColumnBlock(u, colHash, layers, data))
  {
    hide Pow, Groups, Base, BatchStart, Loaded, At, ColumnRow;
    BaseFits(u, r, 1, n);
    BatchFits(u, Base(u, r, 1, n));
    BatchStartIs(u, r, n);
    forall s, k | 0 <= s < u.sectors && 0 <= k < u.arity * u.group
      ensures At(ColumnBlock(u, colHash, layers, data), u.arity * u.group, s, k)
              == ColumnRows(u, colHash, layers, labels, first)[s][u.arity * Base(u, r, 1, n) + k]
    {
      ColumnBlockRight(u, colHash, layers, data, labels, first, BatchStart(u, r, n), s, k);
    }
  }

  lemma PackedLeaf(u: Setup, f: seq<int> -> int, rows: seq<seq<int>>, r: nat, n: nat, block: seq<int>)
    requires RowsOk(u, rows) && r < u.streams && n < Groups(u, 1) && ColumnsOk(u, rows, r, n, block)
    ensures BlockOk(u, f, rows, r, 1, n, HashPacked(u, f, block))
  {
    HashPackedRight(u, f, rows, r, n, block);
  }

  lemma TreeCRunOk(u: Setup, f: seq<int> -> int, colHash: seq<int> -> int, layers: nat,
                   labels: (nat, nat, nat) -> int, first: nat, data: (nat, nat) -> seq<int>, input: seq<int>)
    requires u.Ok() && AllLoaded(u, labels, layers, first, data)
    requires RootsIn(u, f, TreeCRun(u, f, colHash, layers, data, input))
    ensures RunOk(u, f, ColumnRows(u, colHash, layers, labels, first), 0, TreeCRun(u, f, colHash, layers, data, input))
  {
    hide Pow, Groups, ColumnRow, ColumnsOk, BlockOk, Loaded, HashPacked, ColumnBlock, BatchStart, Slice, Merkle;
    var rows, run := ColumnRows(u, colHash, layers, labels, first), TreeCRun(u, f, colHash, layers, data, input);
    forall r: nat, n: nat | r < u.streams && n < Groups(u, 1)
      ensures ColumnsOk(u, rows, r, n, run.columns(r, n)) && BlockOk(u, f, rows, r, 1, n, run.leaf(r)(n))
    {
      ColumnsRight(u, colHash, layers, labels, first, data(r, n), r, n);
      PackedLeaf(u, f, rows, r, n, ColumnBlock(u, colHash, layers, data(r, n)));
    }
    ResultsStashed(u, f, rows, run.leaf, input);
  }

  /** The identity on one-element columns: tree R's leaves are the replica itself. */
  const SINGLE: seq<int> -> int := c => if |c| == 1 then c[0] else 0

  lemma StridedLeaf(u: Setup, f: seq<int> -> int, labels: (nat, nat, nat) -> int, first: nat, data: seq<int>, r: nat,
                    n: nat)
    requires u.Ok() && r < u.streams && n < Groups(u, 1)
    requires Loaded(data, labels, 1, u.arity * u.group, u.sectors, first + BatchStart(u, r, n))
    ensures BlockOk(u, f, ColumnRows(u, SINGLE, 1, labels, first), r, 1, n, HashStrided(u, f, data))
  {
    hide Pow, Groups, Base, BlockOk, HashPacked, HashStrided, BatchStart;
    var rows, block := ColumnRows(u, SINGLE, 1, labels, first), ColumnBlock(u, SINGLE, 1, data);
    ColumnsRight(u, SINGLE, 1, labels, first, data, r, n);
    PackedLeaf(u, f, rows, r, n, block);
    BatchStartIs(u, r, n);
    forall s, k | 0 <= s < u.sectors && 0 <= k < u.arity * u.group
      ensures At(block, u.arity * u.group, s, k) == Loading(data, 0, k, s, u.arity * u.group, u.sectors)
    {
      SingleColumn(u, labels, first, data, block, r, n, s, k);
    }
    StridedIsPacked(u, f, data, block);
  }

  lemma SingleColumn(u: Setup, labels: (nat, nat, nat) -> int, first: nat, data: seq<int>, block: seq<int>, r: nat,
                     n: nat, s: nat, k: nat)
    requires u.Ok() && r < u.streams && n < Groups(u, 1) && s < u.sectors && k < u.arity * u.group
    requires Loaded(data, labels, 1, u.arity * u.group, u.sectors, first + BatchStart(u, r, n))
    requires block == ColumnBlock(u, SINGLE, 1, data)
    ensures At(block, u.arity * u.group, s, k) == Loading(data, 0, k, s, u.arity * u.group, u.sectors)
  {
    hide Pow, Groups, Base, BatchStart, Loading;
    BaseFits(u, r, 1, n);
    BatchFits(u, Base(u, r, 1, n));
    BatchStartIs(u, r, n);
    ColumnBlockRight(u, SINGLE, 1, data, labels, first, BatchStart(u, r, n), s, k);
    assert Loading(data, 0, k, s, u.arity * u.group, u.sectors) == labels(0, first + BatchStart(u, r, n) + k, s);
    SingleRow(u, labels, first, s, BatchStart(u, r, n) + k);
  }

  lemma SingleRow(u: Setup, labels: (nat, nat, nat) -> int, first: nat, s: nat, x: nat)
    requires x < Pow(u.arity, u.Levels())
    ensures ColumnRow(u, SINGLE, 1, labels, first, s)[x] == labels(0, first + x, s)
  {
  }

  lemma TreeRRunOk(u: Setup, f: seq<int> -> int, labels: (nat, nat, nat) -> int, first: nat,
                   data: (nat, nat) -> seq<int>, input: seq<int>, from: nat)
    requires u.Ok() && AllLoaded(u, labels, 1, first, data) && from > 0
    requires RootsIn(u, f, TreeRRun(u, f, data, input))
    ensures RunOk(u, f, ColumnRows(u, SINGLE, 1, labels, first), from, TreeRRun(u, f, data, input))
  {
    hide Pow, Groups, ColumnRow, BlockOk, Loaded, HashStrided, BatchStart, Slice, Merkle;
    var rows, run := ColumnRows(u, SINGLE, 1, labels, first), TreeRRun(u, f, data, input);
    forall r: nat, n: nat | r < u.streams && n < Groups(u, 1) ensures BlockOk(u, f, rows, r, 1, n, run.leaf(r)(n)) {
      StridedLeaf(u, f, labels, first, data(r, n), r, n);
    }
    ResultsStashed(u, f, rows, run.leaf, input);
  }
}
