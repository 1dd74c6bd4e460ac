/** The two passes over the assignments that split each query of a proof. */
module Groth16Split {
  import opened Common
  import opened MsmMath
  import opened BitWords

  /** One circuit's assignments and density maps; scalars are field elements, so only 0 and 1 matter here. */
  datatype Prover = Prover(
    inp: seq<int>, aux: seq<int>, bInpDensity: seq<Word>, aAuxDensity: seq<Word>, bAuxDensity: seq<Word>)
  {
    predicate Mapped() {
      |bInpDensity| == Words(|inp|) && |aAuxDensity| == Words(|aux|) && |bAuxDensity| == Words(|aux|)
    }
  }

  /** The first t values, without those whose density bit is clear. */
  function Gather(values: seq<int>, density: seq<Word>, t: nat): (r: seq<int>)
    requires t <= |values| && |density| == Words(|values|)
    ensures |r| <= t
  {
    if t == 0 then []
    else Gather(values, density, t - 1) + (if Bit(density, t - 1) then [values[t - 1]] else [])
  }

  /** A query's scalars: a prefix from the public inputs, then the dense auxiliary ones. */
  function Query(prefix: seq<int>, values: seq<int>, density: seq<Word>): seq<int>
    requires |density| == Words(|values|)
  {
    prefix + Gather(values, density, |values|)
  }

  function BPrefix(p: Prover): seq<int> requires p.Mapped() { Gather(p.inp, p.bInpDensity, |p.inp|) }

  function AScalars(p: Prover): seq<int> requires p.Mapped() { Query(p.inp, p.aux, p.aAuxDensity) }

  function BScalars(p: Prover): seq<int> requires p.Mapped() { Query(BPrefix(p), p.aux, p.bAuxDensity) }

  /** What the first pass marks: inputs always, other scalars unless they are zero or one. */
  function Sigs(scalars: seq<int>, inputs: nat): (r: seq<bool>)
    ensures |r| == |scalars|
  {
    seq(|scalars|, i requires 0 <= i < |scalars| => i < inputs || (scalars[i] != 0 && scalars[i] != 1))
  }

  /** What batch addition is given: the ones past the inputs. */
  function Ones(scalars: seq<int>, inputs: nat): (r: seq<bool>)
    ensures |r| == |scalars|
  {
    seq(|scalars|, i requires 0 <= i < |scalars| => inputs <= i && scalars[i] == 1)
  }

  /** What the tail multiplication is given. */
  function Tails(scalars: seq<int>, inputs: nat): (r: seq<int>)
    ensures |r| == |scalars|
  {
    seq(|scalars|, i requires 0 <= i < |scalars| => if inputs <= i then Czero(scalars[i]) else scalars[i])
  }

  lemma {:induction false} GatherAt(values: seq<int>, density: seq<Word>, t: nat, end: nat)
    requires t < end <= |values| && |density| == Words(|values|)
    ensures
      var n := |Gather(values, density, t)|;
      var all := Gather(values, density, end);
      && |Gather(values, density, t + 1)| == n + (if Bit(density, t) then 1 else 0) <= |all|
      && (Bit(density, t) ==> all[n] == values[t])
  {
    if t + 1 < end {
      GatherAt(values, density, t, end - 1);
    }
  }

  /** An auxiliary scalar with its density bit set is the next one of the query. */
  lemma NextAux(prefix: seq<int>, values: seq<int>, density: seq<Word>, t: nat)
    requires t < |values| && |density| == Words(|values|)
    ensures
      var n := |prefix| + |Gather(values, density, t)|;
      var all := Query(prefix, values, density);
      && |prefix| + |Gather(values, density, t + 1)| == n + (if Bit(density, t) then 1 else 0) <= |all|
      && (Bit(density, t) ==>
            n < |all| && all[n] == values[t]
            && Sigs(all, |prefix|)[n] == (values[t] != 0 && values[t] != 1)
            && Ones(all, |prefix|)[n] == (values[t] == 1)
            && Tails(all, |prefix|)[n] == Czero(values[t]))
  {
    GatherAt(values, density, t, |values|);
  }

  lemma InputBits(p: Prover, t: nat)
    requires p.Mapped() && t < |p.inp|
    ensures
      var n := |Gather(p.inp, p.bInpDensity, t)|;
      && |Gather(p.inp, p.bInpDensity, t + 1)| == n + (if Bit(p.bInpDensity, t) then 1 else 0)
      && Sigs(AScalars(p), |p.inp|)[t]
      && (Bit(p.bInpDensity, t) ==>
            n < |BPrefix(p)| && BScalars(p)[n] == p.inp[t] && Sigs(BScalars(p), |BPrefix(p)|)[n])
  {
    GatherAt(p.inp, p.bInpDensity, t, |p.inp|);
  }

  lemma BitAt(density: seq<Word>, w: nat, j: nat)
    requires w < |density| && j < CHUNK_BITS
    ensures Bit(density, CHUNK_BITS * w + j) == (j in density[w])
  {
  }

  /** One chunk of public inputs: all are significant for A, the dense ones for B. */
  method FirstPassInputChunk(p: Prover, w: nat, chunk: nat, wb0: Writer, aBits0: Word)
    returns (wb: Writer, aBits: Word)
    requires p.Mapped() && w < Words(|p.inp|) && chunk == Min(CHUNK_BITS, |p.inp| - CHUNK_BITS * w)
    requires Holds(aBits0, Sigs(AScalars(p), |p.inp|), CHUNK_BITS * w, 0)
    requires Writing(wb0, Sigs(BScalars(p), |BPrefix(p)|), |Gather(p.inp, p.bInpDensity, CHUNK_BITS * w)|)
    ensures Holds(aBits, Sigs(AScalars(p), |p.inp|), CHUNK_BITS * w, chunk)
    ensures Writing(wb, Sigs(BScalars(p), |BPrefix(p)|), |Gather(p.inp, p.bInpDensity, CHUNK_BITS * w + chunk)|)
  {
    hide Bit, Writing, Gather, Sigs, Holds;
    ghost var sa, sb := Sigs(AScalars(p), |p.inp|), Sigs(BScalars(p), |BPrefix(p)|);
    var bMap := p.bInpDensity[w];
    wb, aBits := wb0, aBits0;
    for j := 0 to chunk
      invariant Holds(aBits, sa, CHUNK_BITS * w, j)
      invariant Writing(wb, sb, |Gather(p.inp, p.bInpDensity, CHUNK_BITS * w + j)|)
    {
      InputBits(p, CHUNK_BITS * w + j);
      BitAt(p.bInpDensity, w, j);
      SetBit(aBits, sa, CHUNK_BITS * w, j, true);
      aBits := aBits + {j};
      if j in bMap {
        wb := PushBit(wb, true, sb, |Gather(p.inp, p.bInpDensity, CHUNK_BITS * w + j)|);
      }
    }
  }

  /** The A vector after w chunks of `size` inputs: a last partial word is stored but also kept in hand. */
  ghost predicate Flooding(a: seq<Word>, cur: Word, s: seq<bool>, w: nat, size: nat) {
    && |a| == Words(|s|) && size <= |s|
    && if CHUNK_BITS * w <= size then Filled(a, w, s) && Holds(cur, s, CHUNK_BITS * w, 0)
       else 0 < w && CHUNK_BITS * (w - 1) < size
            && Filled(a, w - 1, s) && Holds(cur, s, CHUNK_BITS * (w - 1), size - CHUNK_BITS * (w - 1))
  }

  lemma FloodNext(a: seq<Word>, cur: Word, s: seq<bool>, w: nat, size: nat, word: Word)
    requires Flooding(a, cur, s, w, size) && CHUNK_BITS * w < size
    requires Holds(word, s, CHUNK_BITS * w, Min(CHUNK_BITS, size - CHUNK_BITS * w))
    ensures w < |a|
    ensures Flooding(a[w := word], if CHUNK_BITS * (w + 1) <= size then ZERO else word, s, w + 1, size)
  {
  }

  lemma NoBits(a: seq<Word>, cur: Word, s: seq<bool>, w: nat, size: nat)
    requires Flooding(a, cur, s, w, size) && CHUNK_BITS * w < size
    ensures Holds(cur, s, CHUNK_BITS * w, 0)
  {
  }

  lemma FloodDone(a: seq<Word>, cur: Word, s: seq<bool>, size: nat)
    requires Flooding(a, cur, s, Words(size), size)
    ensures Writing(Writer(a, size / CHUNK_BITS, size % CHUNK_BITS, cur), s, size)
  {
  }

  lemma InputsStart(p: Prover, aVec: seq<Word>, bVec: seq<Word>)
    requires p.Mapped() && |aVec| == Words(|AScalars(p)|) && |bVec| == Words(|BScalars(p)|)
    ensures Flooding(aVec, ZERO, Sigs(AScalars(p), |p.inp|), 0, |p.inp|)
    ensures Writing(Writer(bVec, 0, 0, ZERO), Sigs(BScalars(p), |BPrefix(p)|), |Gather(p.inp, p.bInpDensity, 0)|)
  {
  }

  lemma MarkingStarts(p: Prover)
    requires p.Mapped()
    ensures forall w :: Writing(w, Sigs(AScalars(p), |p.inp|), |p.inp|) ==> Marking(w, p.inp, p.aux, p.aAuxDensity, 0)
    ensures forall w :: Writing(w, Sigs(BScalars(p), |BPrefix(p)|), |Gather(p.inp, p.bInpDensity, |p.inp|)|)
                        ==> Marking(w, BPrefix(p), p.aux, p.bAuxDensity, 0)
  {
  }

  /** First pass over the public inputs. */
  method FirstPassInputs(p: Prover, aVec: seq<Word>, bVec: seq<Word>) returns (wa: Writer, wb: Writer)
    requires p.Mapped() && |aVec| == Words(|AScalars(p)|) && |bVec| == Words(|BScalars(p)|)
    ensures Marking(wa, p.inp, p.aux, p.aAuxDensity, 0)
    ensures Marking(wb, BPrefix(p), p.aux, p.bAuxDensity, 0)
  {
    ghost var sa, sb := Sigs(AScalars(p), |p.inp|), Sigs(BScalars(p), |BPrefix(p)|);
    var size := |p.inp|;
    hide Bit, Filled, Gather, Sigs, Holds, Words, Min, Flooding, Writing, Marking, AScalars, BScalars, BPrefix;
    InputsStart(p, aVec, bVec);
    Chunks(size, Words(size));
    var a, aBits := aVec, ZERO;
    wb := Writer(bVec, 0, 0, ZERO);
    for w := 0 to Words(size)
      invariant Flooding(a, aBits, sa, w, size)
      invariant Writing(wb, sb, |Gather(p.inp, p.bInpDensity, Min(CHUNK_BITS * w, size))|)
    {
      Chunks(size, w);
      var chunk := Min(CHUNK_BITS, size - CHUNK_BITS * w);
      ghost var before := aBits;
      NoBits(a, aBits, sa, w, size);
      wb, aBits := FirstPassInputChunk(p, w, chunk, wb, aBits);
      FloodNext(a, before, sa, w, size, aBits);
      a := a[w := aBits];
      if chunk == CHUNK_BITS {
        aBits := ZERO;
      }
    }
    FloodDone(a, aBits, sa, size);
    MarkingStarts(p);
    wa := Writer(a, size / CHUNK_BITS, size % CHUNK_BITS, aBits);
  }

  /** A query's significance bits are in for the first t auxiliary scalars. */
  ghost predicate Marking(w: Writer, prefix: seq<int>, values: seq<int>, density: seq<Word>, t: nat)
    requires |density| == Words(|values|) && t <= |values|
  {
    Writing(w, Sigs(Query(prefix, values, density), |prefix|), |prefix| + |Gather(values, density, t)|)
  }

  lemma AllMarked(w: Writer, prefix: seq<int>, values: seq<int>, density: seq<Word>)
    requires |density| == Words(|values|) && Marking(w, prefix, values, density, |values|)
    ensures var s := Sigs(Query(prefix, values, density), |prefix|); Writing(w, s, |s|)
  {
  }

  /** Mark one auxiliary scalar in a query, if the query has it. */
  method MarkAux(w0: Writer, bits: Word, sig: bool, ghost c: nat, j: nat,
                 ghost prefix: seq<int>, ghost values: seq<int>, ghost density: seq<Word>) returns (w: Writer)
    requires |density| == Words(|values|) && j < CHUNK_BITS && CHUNK_BITS * c + j < |values|
    requires Marking(w0, prefix, values, density, CHUNK_BITS * c + j)
    requires c < |density| ==> bits == density[c]
    requires sig == (values[CHUNK_BITS * c + j] != 0 && values[CHUNK_BITS * c + j] != 1)
    ensures Marking(w, prefix, values, density, CHUNK_BITS * c + j + 1)
  {
    hide Sigs, Writing;
    ghost var t := CHUNK_BITS * c + j;
    NextAux(prefix, values, density, t);
    w := w0;
    if j in bits {
      w := PushBit(w, sig, Sigs(Query(prefix, values, density), |prefix|), |prefix| + |Gather(values, density, t)|);
    }
  }

  /** One chunk of the auxiliary assignment: mark the scalars that are neither zero nor one. */
  method FirstPassAuxChunk(p: Prover, w: nat, chunk: nat, wa0: Writer, wb0: Writer)
    returns (lBits: Word, wa: Writer, wb: Writer)
    requires p.Mapped() && w < Words(|p.aux|) && chunk <= CHUNK_BITS && CHUNK_BITS * w + chunk <= |p.aux|
    requires Marking(wa0, p.inp, p.aux, p.aAuxDensity, CHUNK_BITS * w)
    requires Marking(wb0, BPrefix(p), p.aux, p.bAuxDensity, CHUNK_BITS * w)
    ensures Holds(lBits, Sigs(p.aux, 0), CHUNK_BITS * w, chunk)
    ensures Marking(wa, p.inp, p.aux, p.aAuxDensity, CHUNK_BITS * w + chunk)
    ensures Marking(wb, BPrefix(p), p.aux, p.bAuxDensity, CHUNK_BITS * w + chunk)
  {
    hide Marking, Holds, Gather, Query, Filled;
    ghost var sl := Sigs(p.aux, 0);
    NothingYet([], sl, CHUNK_BITS * w);
    var aMap, bMap := p.aAuxDensity[w], p.bAuxDensity[w];
    lBits, wa, wb := ZERO, wa0, wb0;
    for j := 0 to chunk
      invariant Holds(lBits, sl, CHUNK_BITS * w, j)
      invariant Marking(wa, p.inp, p.aux, p.aAuxDensity, CHUNK_BITS * w + j)
      invariant Marking(wb, BPrefix(p), p.aux, p.bAuxDensity, CHUNK_BITS * w + j)
    {
      var scalar := p.aux[CHUNK_BITS * w + j];
      var sig := scalar != 0 && scalar != 1;
      SetBit(lBits, sl, CHUNK_BITS * w, j, sig);
      if sig {
        lBits := lBits + {j};
      }
      wa := MarkAux(wa, aMap, sig, w, j, p.inp, p.aux, p.aAuxDensity);
      wb := MarkAux(wb, bMap, sig, w, j, BPrefix(p), p.aux, p.bAuxDensity);
    }
  }

  /** First pass over the auxiliary assignment. */
  method FirstPassAux(p: Prover, lVec: seq<Word>, wa0: Writer, wb0: Writer)
    returns (l: seq<Word>, a: seq<Word>, b: seq<Word>)
    requires p.Mapped() && |lVec| == Words(|p.aux|)
    requires Marking(wa0, p.inp, p.aux, p.aAuxDensity, 0)
    requires Marking(wb0, BPrefix(p), p.aux, p.bAuxDensity, 0)
    ensures Packed(l, Sigs(p.aux, 0))
    ensures Packed(a, Sigs(AScalars(p), |p.inp|))
    ensures Packed(b, Sigs(BScalars(p), |BPrefix(p)|))
  {
    ghost var sl := Sigs(p.aux, 0);
    var size := |p.aux|;
    var wa, wb, lBits := wa0, wb0, ZERO;
    l := lVec;
    NothingYet(l, sl, 0);
    Chunks(size, Words(size));
    hide Marking, Filled, Holds, Gather, Words, Min, Sigs;
    for w := 0 to Words(size)
      invariant |l| == |lVec| && Filled(l, w, sl)
      invariant Marking(wa, p.inp, p.aux, p.aAuxDensity, Min(CHUNK_BITS * w, size))
      invariant Marking(wb, BPrefix(p), p.aux, p.bAuxDensity, Min(CHUNK_BITS * w, size))
    {
      Chunks(size, w);
      lBits, wa, wb := FirstPassAuxChunk(p, w, Min(CHUNK_BITS, size - CHUNK_BITS * w), wa, wb);
      StoreWord(l, w, sl, lBits);
      l := l[w := lBits];
    }
    AllMarked(wa, p.inp, p.aux, p.aAuxDensity);
    AllMarked(wb, BPrefix(p), p.aux, p.bAuxDensity);
    a := FlushBits(wa, Sigs(AScalars(p), |p.inp|));
    b := FlushBits(wb, Sigs(BScalars(p), |BPrefix(p)|));
  }

  /** A list being filled, in order, with the kept entries of `all`: those of the first n are in. */
  ghost predicate Filling(list: seq<int>, at: nat, all: seq<int>, keep: seq<bool>, n: nat) {
    && |all| == |keep| && |list| == CountTrue(keep) && n <= |keep|
    && at == CountTrue(keep[..n]) && at <= |list|
    && list[..at] == Select(all[..n], keep[..n])
  }

  lemma FillNext(list: seq<int>, at: nat, all: seq<int>, keep: seq<bool>, n: nat)
    requires Filling(list, at, all, keep, n) && n < |keep|
    ensures keep[n] ==> at < |list| && Filling(list[at := all[n]], at + 1, all, keep, n + 1)
    ensures !keep[n] ==> Filling(list, at, all, keep, n + 1)
  {
    SelectNext(all, keep, n);
    CountPrefix(keep, n + 1);
    if keep[n] {
      var list' := list[at := all[n]];
      assert list'[..at + 1] == list[..at] + [all[n]];
    }
  }

  lemma FillStart(list: seq<int>, all: seq<int>, keep: seq<bool>)
    requires |all| == |keep| && |list| == CountTrue(keep)
    ensures Filling(list, 0, all, keep, 0)
  {
    assert all[..0] == [] && list[..0] == [];
  }

  lemma FillDone(list: seq<int>, at: nat, all: seq<int>, keep: seq<bool>)
    requires Filling(list, at, all, keep, |keep|)
    ensures at == |list| && list == Select(all, keep)
  {
    assert keep[..|keep|] == keep && all[..|keep|] == all && list[..at] == list;
  }

  function Everything(n: nat): (r: seq<bool>)
    ensures |r| == n
  {
    seq(n, _ => true)
  }

  /** What one circuit is to contribute to one query: its scalars, and the mask all circuits share. */
  datatype Plan = Plan(split: bool, scalars: seq<int>, inputs: nat, mask: seq<bool>) {
    ghost predicate Ok() {
      && |scalars| == |mask| && inputs <= |mask|
      && forall i :: 0 <= i < inputs ==> mask[i]
    }

    function Tail(): (r: seq<int>) ensures |r| == |scalars| { if split then Tails(scalars, inputs) else scalars }

    function Keep(): (r: seq<bool>) ensures |r| == |mask| { if split then mask else Everything(|mask|) }
  }

  /** A query's cursors in the second pass, for one circuit. */
  datatype Splitter = Splitter(w: Writer, mask: Word, scalars: seq<int>, at: nat, point: nat)

  /** The second pass has dealt with the first n scalars of the query. */
  ghost predicate Splitting(q: Splitter, plan: Plan, maskWords: seq<Word>, n: nat) {
    && plan.Ok() && Filling(q.scalars, q.at, plan.Tail(), plan.Keep(), n)
    && (plan.split ==>
          && Writing(q.w, Ones(plan.scalars, plan.inputs), n) && q.point == n
          && Packed(maskWords, plan.mask)
          && (q.w.cursor < |maskWords| ==> q.mask == maskWords[q.w.cursor]))
  }

  /** A mask word, read with its bound; past the end it is never used. */
  function MaskAt(words: seq<Word>, cursor: nat): Word {
    if cursor < |words| then words[cursor] else ZERO
  }

  lemma MaskBit(q: Splitter, plan: Plan, maskWords: seq<Word>, n: nat)
    requires Splitting(q, plan, maskWords, n) && n < |plan.mask| && plan.split
    ensures q.w.off in q.mask <==> plan.mask[n]
  {
  }

  /** One dense auxiliary scalar of a query. */
  method SplitScalar(q: Splitter, scalar: int, ghost plan: Plan, split: bool, maskWords: seq<Word>, ghost n: nat)
    returns (q': Splitter)
    requires Splitting(q, plan, maskWords, n) && n < |plan.mask| && split == plan.split
    requires plan.inputs <= n && plan.scalars[n] == scalar
    ensures Splitting(q', plan, maskWords, n + 1)
  {
    hide Filling, Writing, Packed, Filled, Holds;
    FillNext(q.scalars, q.at, plan.Tail(), plan.Keep(), n);
    if split {
      MaskBit(q, plan, maskWords, n);
      q' := q;
      if q.w.off in q.mask {
        q' := q'.(scalars := q.scalars[q.at := Czero(scalar)], at := q.at + 1);
      }
      q' := q'.(point := q.point + 1);
      var w := PushBit(q.w, scalar == 1, Ones(plan.scalars, plan.inputs), n);
      q' := q'.(w := w, mask := if w.cursor != q.w.cursor then MaskAt(maskWords, w.cursor) else q.mask);
    } else {
      q' := q.(scalars := q.scalars[q.at := scalar], at := q.at + 1);
    }
  }

  /** How far into a query the first t auxiliary scalars reach. */
  ghost function Reached(prefix: seq<int>, values: seq<int>, density: seq<Word>, t: nat): nat
    requires |density| == Words(|values|) && t <= |values|
  {
    |prefix| + |Gather(values, density, t)|
  }

  /** Circuit 0 collects the bases of the tail, which all circuits share. */
  ghost predicate Basing(first: bool, bases: seq<int>, points: seq<int>, plan: Plan, n: nat) {
    first && plan.split ==>
      n <= |plan.mask| && Filling(bases, CountTrue(plan.mask[..n]), points, plan.mask, n)
  }

  lemma SplittingAt(q: Splitter, plan: Plan, maskWords: seq<Word>, n: nat)
    requires Splitting(q, plan, maskWords, n) && plan.split
    ensures n <= |plan.mask| && q.at == CountTrue(plan.mask[..n]) && q.point == n
  {
  }

  predicate Hits(q: Splitter, split: bool, bits: Word, j: nat) {
    split && j in bits && q.w.off in q.mask
  }

  /** The base of a significant scalar goes to the tail's bases. */
  method CopyBase(first: bool, split: bool, q: Splitter, bits: Word, j: nat, bases: seq<int>, points: seq<int>,
                  ghost c: nat, ghost plan: Plan, ghost maskWords: seq<Word>,
                  ghost prefix: seq<int>, ghost values: seq<int>, ghost density: seq<Word>)
    returns (bases': seq<int>)
    requires |density| == Words(|values|) && j < CHUNK_BITS && CHUNK_BITS * c + j < |values|
    requires c < |density| ==> bits == density[c]
    requires split == plan.split && plan.scalars == Query(prefix, values, density)
    requires Splitting(q, plan, maskWords, Reached(prefix, values, density, CHUNK_BITS * c + j))
    requires Basing(first, bases, points, plan, Reached(prefix, values, density, CHUNK_BITS * c + j))
    requires split ==> |points| == |plan.mask|
    ensures Basing(first, bases', points, plan, Reached(prefix, values, density, CHUNK_BITS * c + j + 1))
    ensures !first ==> bases' == bases
  {
    hide Filling, Splitting, Gather, Query, Words;
    ghost var t := CHUNK_BITS * c + j;
    ghost var n := Reached(prefix, values, density, t);
    BaseNext(plan, maskWords, q, bases, points, bits, c, j, prefix, values, density);
    bases' := bases;
    if first && Hits(q, split, bits, j) {
      bases' := bases[q.at := points[q.point]];
    }
  }

  lemma BaseNext(plan: Plan, maskWords: seq<Word>, q: Splitter, bases: seq<int>, points: seq<int>, bits: Word,
                 c: nat, j: nat, prefix: seq<int>, values: seq<int>, density: seq<Word>)
    requires |density| == Words(|values|) && j < CHUNK_BITS && CHUNK_BITS * c + j < |values|
    requires c < |density| ==> bits == density[c]
    requires plan.scalars == Query(prefix, values, density)
    requires Splitting(q, plan, maskWords, Reached(prefix, values, density, CHUNK_BITS * c + j))
    requires plan.split ==> |points| == |plan.mask|
    ensures
      var n := Reached(prefix, values, density, CHUNK_BITS * c + j);
      var n' := Reached(prefix, values, density, CHUNK_BITS * c + j + 1);
      plan.split && n <= |plan.mask| && Filling(bases, CountTrue(plan.mask[..n]), points, plan.mask, n) ==>
        && n' <= |plan.mask|
        && if Hits(q, true, bits, j)
           then q.at < |bases| && q.point < |points|
                && Filling(bases[q.at := points[q.point]], CountTrue(plan.mask[..n']), points, plan.mask, n')
           else Filling(bases, CountTrue(plan.mask[..n']), points, plan.mask, n')
  {
    hide Filling, Splitting, CountTrue, Query, Gather, Bit, Sigs, Ones, Tails;
    var t := CHUNK_BITS * c + j;
    var n := Reached(prefix, values, density, t);
    NextAux(prefix, values, density, t);
    DenseBit(density, c, j);
    if plan.split {
      SplittingAt(q, plan, maskWords, n);
      PlanOk(q, plan, maskWords, n);
      if Bit(density, t) && Filling(bases, CountTrue(plan.mask[..n]), points, plan.mask, n) {
        BaseStep(plan, maskWords, q, bases, points, n);
      }
    }
  }

  lemma DenseBit(density: seq<Word>, c: nat, j: nat)
    requires j < CHUNK_BITS && c < |density|
    ensures Bit(density, CHUNK_BITS * c + j) <==> j in density[c]
  {
  }

  /** The next base of a query's tail. */
  lemma BaseStep(plan: Plan, maskWords: seq<Word>, q: Splitter, bases: seq<int>, points: seq<int>, n: nat)
    requires Splitting(q, plan, maskWords, n) && plan.split && n < |plan.mask| == |points|
    requires Filling(bases, CountTrue(plan.mask[..n]), points, plan.mask, n)
    ensures
      if q.w.off in q.mask
      then q.at < |bases| && q.point < |points|
           && Filling(bases[q.at := points[q.point]], CountTrue(plan.mask[..n + 1]), points, plan.mask, n + 1)
      else Filling(bases, CountTrue(plan.mask[..n + 1]), points, plan.mask, n + 1)
  {
    hide Filling, Splitting, CountTrue;
    SplittingAt(q, plan, maskWords, n);
    MaskBit(q, plan, maskWords, n);
    FillNext(bases, CountTrue(plan.mask[..n]), points, plan.mask, n);
    SelectNext(points, plan.mask, n);
  }

  lemma PlanOk(q: Splitter, plan: Plan, maskWords: seq<Word>, n: nat)
    requires Splitting(q, plan, maskWords, n)
    ensures plan.Ok() && n <= |plan.mask|
  {
  }

  /** One auxiliary scalar of the A or the B query. */
  method SplitAux(q: Splitter, split: bool, maskWords: seq<Word>, bits: Word, j: nat, scalar: int,
                  ghost c: nat, ghost plan: Plan,
                  ghost prefix: seq<int>, ghost values: seq<int>, ghost density: seq<Word>)
    returns (q': Splitter)
    requires |density| == Words(|values|) && j < CHUNK_BITS && CHUNK_BITS * c + j < |values|
    requires c < |density| ==> bits == density[c]
    requires values[CHUNK_BITS * c + j] == scalar
    requires split == plan.split && plan.scalars == Query(prefix, values, density) && plan.inputs == |prefix|
    requires Splitting(q, plan, maskWords, Reached(prefix, values, density, CHUNK_BITS * c + j))
    ensures Splitting(q', plan, maskWords, Reached(prefix, values, density, CHUNK_BITS * c + j + 1))
  {
    hide Splitting, Ones, Tails, Sigs;
    ghost var t := CHUNK_BITS * c + j;
    NextAux(prefix, values, density, t);
    PlanOk(q, plan, maskWords, Reached(prefix, values, density, t));
    q' := q;
    if j in bits {
      q' := SplitScalar(q, scalar, plan, split, maskWords, Reached(prefix, values, density, t));
    }
  }

  /** The L query takes every auxiliary scalar, so its bits are counted by the chunk. */
  datatype LState = LState(bits: Word, scalars: seq<int>, at: nat, bases: seq<int>)

  ghost predicate LAt(first: bool, l: LState, plan: Plan, maskWords: seq<Word>, points: seq<int>, t: nat) {
    plan.split ==>
      && plan.inputs == 0 && |plan.mask| == |plan.scalars| == |points| && Packed(maskWords, plan.mask)
      && Filling(l.scalars, l.at, Tails(plan.scalars, 0), plan.mask, t)
      && (first ==> Filling(l.bases, l.at, points, plan.mask, t))
  }

  ghost predicate LDone(first: bool, l: LState, plan: Plan, maskWords: seq<Word>, points: seq<int>, w: nat, j: nat) {
    && LAt(first, l, plan, maskWords, points, CHUNK_BITS * w + j)
    && (plan.split ==> Holds(l.bits, Ones(plan.scalars, 0), CHUNK_BITS * w, j))
  }

  lemma LMaskBit(maskWords: seq<Word>, mask: seq<bool>, w: nat, j: nat)
    requires Packed(maskWords, mask) && CHUNK_BITS * w + j < |mask| && j < CHUNK_BITS
    ensures w < |maskWords| && (j in maskWords[w] <==> mask[CHUNK_BITS * w + j])
  {
  }

  method SplitL(first: bool, l: LState, split: bool, maskWords: seq<Word>, points: seq<int>,
                scalar: int, w: nat, j: nat, ghost plan: Plan) returns (l': LState)
    requires split == plan.split && j < CHUNK_BITS && CHUNK_BITS * w + j < |plan.scalars|
    requires LDone(first, l, plan, maskWords, points, w, j) && scalar == plan.scalars[CHUNK_BITS * w + j]
    ensures LDone(first, l', plan, maskWords, points, w, j + 1)
    ensures !first ==> l'.bases == l.bases
  {
    hide Filling, Packed, Holds;
    l' := l;
    if split {
      ghost var t := CHUNK_BITS * w + j;
      LMaskBit(maskWords, plan.mask, w, j);
      FillNext(l.scalars, l.at, Tails(plan.scalars, 0), plan.mask, t);
      if first {
        FillNext(l.bases, l.at, points, plan.mask, t);
      }
      SetBit(l.bits, Ones(plan.scalars, 0), CHUNK_BITS * w, j, scalar == 1);
      if scalar == 1 {
        l' := l'.(bits := l.bits + {j});
      }
      if j in maskWords[w] {
        if first {
          l' := l'.(bases := l.bases[l.at := points[CHUNK_BITS * w + j]]);
        }
        l' := l'.(scalars := l.scalars[l.at := Czero(scalar)], at := l.at + 1);
      }
    }
  }

  datatype Masks = Masks(l: seq<Word>, a: seq<Word>, b: seq<Word>)

  datatype Flags = Flags(l: bool, a: bool, b: bool)

  /** One table of curve points per query; the B query has one in each group. */
  datatype Tables = Tables(l: seq<int>, a: seq<int>, b1: seq<int>, b2: seq<int>)

  datatype Plans = Plans(l: Plan, a: Plan, b: Plan)

  /** What a circuit's second pass has at hand while it walks the auxiliary assignment. */
  datatype Pass = Pass(l: LState, a: Splitter, b: Splitter, aBases: seq<int>, b1Bases: seq<int>, b2Bases: seq<int>)

  function BasesOf(s: Pass): Tables { Tables(s.l.bases, s.aBases, s.b1Bases, s.b2Bases) }

  /** The plans are those of this circuit, and the masks and tables fit them. */
  ghost predicate Planned(p: Prover, plans: Plans, split: Flags, points: Tables) {
    && p.Mapped()
    && plans.l.scalars == p.aux && plans.l.inputs == 0
    && plans.a.scalars == AScalars(p) && plans.a.inputs == |p.inp|
    && plans.b.scalars == BScalars(p) && plans.b.inputs == |BPrefix(p)|
    && split == Flags(plans.l.split, plans.a.split, plans.b.split)
    && plans.l.Ok() && plans.a.Ok() && plans.b.Ok()
    && |points.l| == |p.aux| && |points.a| == |plans.a.scalars|
    && |points.b1| == |points.b2| == |plans.b.scalars|
  }

  ghost predicate ADone(first: bool, s: Pass, plan: Plan, maskWords: seq<Word>, points: seq<int>, p: Prover, t: nat)
    requires p.Mapped() && t <= |p.aux|
  {
    && Splitting(s.a, plan, maskWords, Reached(p.inp, p.aux, p.aAuxDensity, t))
    && Basing(first, s.aBases, points, plan, Reached(p.inp, p.aux, p.aAuxDensity, t))
  }

  ghost predicate BDone(first: bool, s: Pass, plan: Plan, maskWords: seq<Word>, points: Tables, p: Prover, t: nat)
    requires p.Mapped() && t <= |p.aux|
  {
    && Splitting(s.b, plan, maskWords, Reached(BPrefix(p), p.aux, p.bAuxDensity, t))
    && Basing(first, s.b1Bases, points.b1, plan, Reached(BPrefix(p), p.aux, p.bAuxDensity, t))
    && Basing(first, s.b2Bases, points.b2, plan, Reached(BPrefix(p), p.aux, p.bAuxDensity, t))
  }

  method SplitA(first: bool, p: Prover, s: Pass, split: bool, maskWords: seq<Word>, points: seq<int>,
                w: nat, j: nat, ghost plan: Plan) returns (s': Pass)
    requires p.Mapped() && j < CHUNK_BITS && CHUNK_BITS * w + j < |p.aux| && split == plan.split
    requires plan.scalars == AScalars(p) && plan.inputs == |p.inp| && plan.Ok() && |points| == |plan.scalars|
    requires ADone(first, s, plan, maskWords, points, p, CHUNK_BITS * w + j)
    ensures ADone(first, s', plan, maskWords, points, p, CHUNK_BITS * w + j + 1)
    ensures s' == s.(a := s'.a, aBases := s'.aBases) && (!first ==> BasesOf(s') == BasesOf(s))
  {
    hide Splitting, Basing, Reached;
    assert w < |p.aAuxDensity|;
    var bits := p.aAuxDensity[w];
    var bases := CopyBase(first, split, s.a, bits, j, s.aBases, points, w, plan, maskWords, p.inp, p.aux,
                          p.aAuxDensity);
    var a := SplitAux(s.a, split, maskWords, bits, j, p.aux[CHUNK_BITS * w + j], w, plan, p.inp, p.aux, p.aAuxDensity);
    s' := s.(a := a, aBases := bases);
  }

  method SplitB(first: bool, p: Prover, s: Pass, split: bool, maskWords: seq<Word>, points: Tables,
                w: nat, j: nat, ghost plan: Plan) returns (s': Pass)
    requires p.Mapped() && j < CHUNK_BITS && CHUNK_BITS * w + j < |p.aux| && split == plan.split
    requires plan.scalars == BScalars(p) && plan.inputs == |BPrefix(p)| && plan.Ok()
    requires |points.b1| == |points.b2| == |plan.scalars|
    requires BDone(first, s, plan, maskWords, points, p, CHUNK_BITS * w + j)
    ensures BDone(first, s', plan, maskWords, points, p, CHUNK_BITS * w + j + 1)
    ensures s' == s.(b := s'.b, b1Bases := s'.b1Bases, b2Bases := s'.b2Bases)
    ensures !first ==> BasesOf(s') == BasesOf(s)
  {
    hide Splitting, Basing, Reached;
    assert w < |p.bAuxDensity|;
    ghost var prefix := BPrefix(p);
    var bits := p.bAuxDensity[w];
    var b1 := CopyBase(first, split, s.b, bits, j, s.b1Bases, points.b1, w, plan, maskWords, prefix, p.aux,
                       p.bAuxDensity);
    var b2 := CopyBase(first, split, s.b, bits, j, s.b2Bases, points.b2, w, plan, maskWords, prefix, p.aux,
                       p.bAuxDensity);
    var b := SplitAux(s.b, split, maskWords, bits, j, p.aux[CHUNK_BITS * w + j], w, plan, prefix, p.aux, p.bAuxDensity);
    s' := s.(b := b, b1Bases := b1, b2Bases := b2);
  }

  /** One chunk of the auxiliary assignment, for all three queries. */
  method SecondPassAuxChunk(first: bool, p: Prover, s0: Pass, split: Flags, masks: Masks, points: Tables,
                            w: nat, chunk: nat, ghost plans: Plans) returns (s: Pass)
    requires Planned(p, plans, split, points)
    requires chunk <= CHUNK_BITS && CHUNK_BITS * w + chunk <= |p.aux|
    requires LDone(first, s0.l, plans.l, masks.l, points.l, w, 0)
    requires ADone(first, s0, plans.a, masks.a, points.a, p, CHUNK_BITS * w)
    requires BDone(first, s0, plans.b, masks.b, points, p, CHUNK_BITS * w)
    ensures LDone(first, s.l, plans.l, masks.l, points.l, w, chunk)
    ensures ADone(first, s, plans.a, masks.a, points.a, p, CHUNK_BITS * w + chunk)
    ensures BDone(first, s, plans.b, masks.b, points, p, CHUNK_BITS * w + chunk)
    ensures !first ==> BasesOf(s) == BasesOf(s0)
  {
    hide Splitting, Basing, Reached, LDone, AScalars, BScalars, BPrefix, Words;
    s := s0;
    for j := 0 to chunk
      invariant LDone(first, s.l, plans.l, masks.l, points.l, w, j)
      invariant ADone(first, s, plans.a, masks.a, points.a, p, CHUNK_BITS * w + j)
      invariant BDone(first, s, plans.b, masks.b, points, p, CHUNK_BITS * w + j)
      invariant !first ==> BasesOf(s) == BasesOf(s0)
    {
      var scalar := p.aux[CHUNK_BITS * w + j];
      var l := SplitL(first, s.l, split.l, masks.l, points.l, scalar, w, j, plans.l);
      s := s.(l := l);
      s := SplitA(first, p, s, split.a, masks.a, points.a, w, j, plans.a);
      s := SplitB(first, p, s, split.b, masks.b, points, w, j, plans.b);
    }
  }

  lemma {:induction false} CountAll(mask: seq<bool>, n: nat)
    requires n <= |mask| && forall i :: 0 <= i < n ==> mask[i]
    ensures CountTrue(mask[..n]) == n
  {
    if n > 0 {
      CountAll(mask, n - 1);
      assert mask[..n][..n - 1] == mask[..n - 1];
    }
  }

  /** While a query's inputs go by, nothing is left out of the tail and no bit is set. */
  ghost predicate Inputting(list: seq<int>, plan: Plan, n: nat) {
    plan.Ok() && n <= plan.inputs && Filling(list, n, plan.Tail(), plan.Keep(), n)
  }

  method TakeInput(list: seq<int>, at: nat, scalar: int, ghost plan: Plan) returns (list': seq<int>)
    requires Inputting(list, plan, at) && at < plan.inputs && plan.scalars[at] == scalar
    ensures Inputting(list', plan, at + 1)
  {
    hide Filling;
    FillNext(list, at, plan.Tail(), plan.Keep(), at);
    list' := list[at := scalar];
  }

  method CopyInputBase(first: bool, split: bool, bases: seq<int>, points: seq<int>, at: nat, ghost plan: Plan)
    returns (bases': seq<int>)
    requires plan.Ok() && at < plan.inputs && split == plan.split && Basing(first, bases, points, plan, at)
    ensures Basing(first, bases', points, plan, at + 1)
    ensures !first ==> bases' == bases
  {
    bases' := bases;
    CountAll(plan.mask, at);
    CountAll(plan.mask, at + 1);
    if first && split {
      FillNext(bases, at, points, plan.mask, at);
      bases' := bases[at := points[at]];
    }
  }

  /** The B query's part of one input. */
  ghost predicate BInput(first: bool, s: Pass, plan: Plan, points: Tables, n: nat) {
    && Inputting(s.b.scalars, plan, n) && s.b.at == n && Writing(s.b.w, Ones(plan.scalars, plan.inputs), n)
    && Basing(first, s.b1Bases, points.b1, plan, n) && Basing(first, s.b2Bases, points.b2, plan, n)
  }

  lemma NoOne(plan: Plan, n: nat)
    requires plan.Ok() && n < plan.inputs
    ensures n < |Ones(plan.scalars, plan.inputs)| && !Ones(plan.scalars, plan.inputs)[n]
  {
  }

  method InputB(first: bool, s: Pass, split: bool, points: Tables, scalar: int, ghost plan: Plan)
    returns (s': Pass)
    requires BInput(first, s, plan, points, s.b.at) && split == plan.split
    requires s.b.at < plan.inputs && plan.Ok() && plan.scalars[s.b.at] == scalar
    ensures BInput(first, s', plan, points, s.b.at + 1)
    ensures s' == s.(b := s'.b, b1Bases := s'.b1Bases, b2Bases := s'.b2Bases)
    ensures !first ==> BasesOf(s') == BasesOf(s)
  {
    hide Inputting, Writing, Basing, Ones;
    var b1 := CopyInputBase(first, split, s.b1Bases, points.b1, s.b.at, plan);
    var b2 := CopyInputBase(first, split, s.b2Bases, points.b2, s.b.at, plan);
    var list := TakeInput(s.b.scalars, s.b.at, scalar, plan);
    NoOne(plan, s.b.at);
    var w := PushBit(s.b.w, false, Ones(plan.scalars, plan.inputs), s.b.at);
    s' := s.(b := s.b.(w := w, scalars := list, at := s.b.at + 1), b1Bases := b1, b2Bases := b2);
  }

  /** The A query's part of the inputs: every one is in it. */
  ghost predicate AInput(first: bool, s: Pass, plan: Plan, points: seq<int>, n: nat) {
    Inputting(s.a.scalars, plan, n) && s.a.at == n && Basing(first, s.aBases, points, plan, n)
  }

  method InputA(first: bool, s: Pass, split: bool, points: seq<int>, scalar: int, ghost plan: Plan)
    returns (s': Pass)
    requires AInput(first, s, plan, points, s.a.at) && split == plan.split
    requires s.a.at < plan.inputs && plan.Ok() && plan.scalars[s.a.at] == scalar
    ensures AInput(first, s', plan, points, s.a.at + 1)
    ensures s' == s.(a := s'.a, aBases := s'.aBases) && s'.a.w == s.a.w
    ensures !first ==> BasesOf(s') == BasesOf(s)
  {
    hide Inputting, Basing;
    var bases := CopyInputBase(first, split, s.aBases, points, s.a.at, plan);
    var list := TakeInput(s.a.scalars, s.a.at, scalar, plan);
    s' := s.(a := s.a.(scalars := list, at := s.a.at + 1), aBases := bases);
  }

  ghost function Dense(p: Prover, t: nat): nat
    requires p.Mapped() && t <= |p.inp|
  {
    |Gather(p.inp, p.bInpDensity, t)|
  }

  method SecondPassInputChunk(first: bool, p: Prover, s0: Pass, split: Flags, points: Tables,
                              w: nat, chunk: nat, ghost plans: Plans) returns (s: Pass)
    requires Planned(p, plans, split, points) && chunk <= CHUNK_BITS && CHUNK_BITS * w + chunk <= |p.inp|
    requires AInput(first, s0, plans.a, points.a, CHUNK_BITS * w)
    requires BInput(first, s0, plans.b, points, Dense(p, CHUNK_BITS * w))
    ensures AInput(first, s, plans.a, points.a, CHUNK_BITS * w + chunk) && s.a.w == s0.a.w
    ensures BInput(first, s, plans.b, points, Dense(p, CHUNK_BITS * w + chunk))
    ensures s.l == s0.l && (!first ==> BasesOf(s) == BasesOf(s0))
  {
    hide Inputting, Writing, Basing, Bit, Ones, Tails, Sigs, Gather;
    s := s0;
    for j := 0 to chunk
      invariant AInput(first, s, plans.a, points.a, CHUNK_BITS * w + j) && s.a.w == s0.a.w
      invariant BInput(first, s, plans.b, points, Dense(p, CHUNK_BITS * w + j))
      invariant s.l == s0.l && (!first ==> BasesOf(s) == BasesOf(s0))
    {
      InputBits(p, CHUNK_BITS * w + j);
      BitAt(p.bInpDensity, w, j);
      var scalar := p.inp[CHUNK_BITS * w + j];
      if j in p.bInpDensity[w] {
        s := InputB(first, s, split.b, points, scalar, plans.b);
      }
      s := InputA(first, s, split.a, points.a, scalar, plans.a);
    }
  }

  lemma LStoreChunk(first: bool, l: LState, plan: Plan, maskWords: seq<Word>, points: seq<int>,
                    vec: seq<Word>, w: nat, n: nat)
    requires n == |plan.scalars| && CHUNK_BITS * w < n && |vec| == Words(n)
    requires LDone(first, l, plan, maskWords, points, w, Min(CHUNK_BITS, n - CHUNK_BITS * w))
    requires plan.split ==> Filled(vec, w, Ones(plan.scalars, 0))
    ensures w < |vec| && LAt(first, l, plan, maskWords, points, Min(CHUNK_BITS * (w + 1), n))
    ensures plan.split ==> Filled(vec[w := l.bits], w + 1, Ones(plan.scalars, 0))
  {
    Chunks(n, w);
    hide LAt, Holds, Filled;
    if plan.split {
      StoreWord(vec, w, Ones(plan.scalars, 0), l.bits);
    }
  }

  lemma LOpenChunk(first: bool, l: LState, plan: Plan, maskWords: seq<Word>, points: seq<int>, w: nat)
    requires LAt(first, l, plan, maskWords, points, CHUNK_BITS * w) && CHUNK_BITS * w <= |plan.scalars|
    ensures LDone(first, l.(bits := ZERO), plan, maskWords, points, w, 0)
  {
  }

  /** Second pass over the auxiliary assignment. */
  method SecondPassAux(first: bool, p: Prover, s0: Pass, split: Flags, masks: Masks, points: Tables,
                       lVec: seq<Word>, ghost plans: Plans) returns (s: Pass, vec: seq<Word>)
    requires Planned(p, plans, split, points) && |lVec| == Words(|p.aux|)
    requires LAt(first, s0.l, plans.l, masks.l, points.l, 0)
    requires ADone(first, s0, plans.a, masks.a, points.a, p, 0)
    requires BDone(first, s0, plans.b, masks.b, points, p, 0)
    ensures LAt(first, s.l, plans.l, masks.l, points.l, |p.aux|)
    ensures split.l ==> Packed(vec, Ones(p.aux, 0))
    ensures ADone(first, s, plans.a, masks.a, points.a, p, |p.aux|)
    ensures BDone(first, s, plans.b, masks.b, points, p, |p.aux|)
    ensures !first ==> BasesOf(s) == BasesOf(s0)
  {
    hide LAt, LDone, ADone, BDone, Words, Filled, AScalars, BScalars, BPrefix, Ones;
    var size := |p.aux|;
    NothingYet(lVec, Ones(p.aux, 0), 0);
    Chunks(size, Words(size));
    s, vec := s0, lVec;
    for w := 0 to Words(size)
      invariant |vec| == |lVec| && (split.l ==> Filled(vec, w, Ones(p.aux, 0)))
      invariant LAt(first, s.l, plans.l, masks.l, points.l, Min(CHUNK_BITS * w, size))
      invariant ADone(first, s, plans.a, masks.a, points.a, p, Min(CHUNK_BITS * w, size))
      invariant BDone(first, s, plans.b, masks.b, points, p, Min(CHUNK_BITS * w, size))
      invariant !first ==> BasesOf(s) == BasesOf(s0)
    {
      Chunks(size, w);
      LOpenChunk(first, s.l, plans.l, masks.l, points.l, w);
      var start := s.(l := s.l.(bits := ZERO));
      SameState(first, s, start, plans, masks, points, p, CHUNK_BITS * w);
      s := SecondPassAuxChunk(first, p, start, split, masks, points, w, Min(CHUNK_BITS, size - CHUNK_BITS * w), plans);
      LStoreChunk(first, s.l, plans.l, masks.l, points.l, vec, w, size);
      vec := vec[w := s.l.bits];
    }
  }

  lemma SameState(first: bool, s: Pass, s': Pass, plans: Plans, masks: Masks, points: Tables, p: Prover, t: nat)
    requires p.Mapped() && t <= |p.aux| && s' == s.(l := s'.l)
    requires ADone(first, s, plans.a, masks.a, points.a, p, t) && BDone(first, s, plans.b, masks.b, points, p, t)
    ensures ADone(first, s', plans.a, masks.a, points.a, p, t) && BDone(first, s', plans.b, masks.b, points, p, t)
  {
  }

  /** One list of tail scalars per query. */
  datatype Lists = Lists(l: seq<int>, a: seq<int>, b: seq<int>)

  /** The vectors, tails and bases as `split_vectors` and the resizes leave them. */
  ghost predicate Sized(first: bool, p: Prover, plans: Plans, masks: Masks, vecs: Masks, tails: Lists, bases: Tables)
    requires p.Mapped()
  {
    && |vecs.l| == Words(|p.aux|) && |vecs.a| == Words(|plans.a.scalars|) && |vecs.b| == Words(|plans.b.scalars|)
    && Packed(masks.l, plans.l.mask) && Packed(masks.a, plans.a.mask) && Packed(masks.b, plans.b.mask)
    && (plans.l.split ==> |tails.l| == CountTrue(plans.l.mask))
    && |tails.a| == CountTrue(plans.a.Keep()) && |tails.b| == CountTrue(plans.b.Keep())
    && (first && plans.l.split ==> |bases.l| == CountTrue(plans.l.mask))
    && (first && plans.a.split ==> |bases.a| == CountTrue(plans.a.mask))
    && (first && plans.b.split ==> |bases.b1| == |bases.b2| == CountTrue(plans.b.mask))
  }

  /** The inputs of a query are through, so its auxiliary part can start. */
  lemma QueryStarts(q: Splitter, plan: Plan, maskWords: seq<Word>)
    requires Inputting(q.scalars, plan, plan.inputs) && q.at == q.point == plan.inputs
    requires Writing(q.w, Ones(plan.scalars, plan.inputs), plan.inputs) && Packed(maskWords, plan.mask)
    requires q.mask == MaskAt(maskWords, q.w.cursor)
    ensures Splitting(q, plan, maskWords, plan.inputs)
  {
  }

  lemma ListStarts(list: seq<int>, plan: Plan)
    requires plan.Ok() && |list| == CountTrue(plan.Keep())
    ensures Inputting(list, plan, 0)
  {
    FillStart(list, plan.Tail(), plan.Keep());
  }

  lemma BasesStart(first: bool, bases: seq<int>, points: seq<int>, plan: Plan)
    requires first && plan.split ==> |points| == |plan.mask| && |bases| == CountTrue(plan.mask)
    ensures Basing(first, bases, points, plan, 0)
  {
    if first && plan.split {
      FillStart(bases, points, plan.mask);
      assert plan.mask[..0] == [];
    }
  }

  lemma PassStarts(first: bool, p: Prover, plans: Plans, split: Flags, masks: Masks, points: Tables,
                   vecs: Masks, tails: Lists, bases: Tables, s: Pass)
    requires Planned(p, plans, split, points) && Sized(first, p, plans, masks, vecs, tails, bases)
    requires s == Pass(LState(ZERO, tails.l, 0, bases.l),
                       Splitter(Writer(vecs.a, 0, 0, ZERO), ZERO, tails.a, 0, 0),
                       Splitter(Writer(vecs.b, 0, 0, ZERO), ZERO, tails.b, 0, 0), bases.a, bases.b1, bases.b2)
    ensures AInput(first, s, plans.a, points.a, 0)
    ensures BInput(first, s, plans.b, points, Dense(p, 0))
    ensures LAt(first, s.l, plans.l, masks.l, points.l, 0)
    ensures Flooding(vecs.a, ZERO, Ones(plans.a.scalars, plans.a.inputs), 0, |p.inp|)
  {
    hide Inputting, Basing, Packed, Filling;
    ListStarts(tails.a, plans.a);
    ListStarts(tails.b, plans.b);
    BasesStart(first, bases.a, points.a, plans.a);
    BasesStart(first, bases.b1, points.b1, plans.b);
    BasesStart(first, bases.b2, points.b2, plans.b);
    if plans.l.split {
      FillStart(tails.l, Tails(plans.l.scalars, 0), plans.l.mask);
      if first {
        FillStart(bases.l, points.l, plans.l.mask);
      }
    }
  }

  lemma NoOnes(plan: Plan, w: nat, len: nat)
    requires plan.Ok() && CHUNK_BITS * w + len <= plan.inputs
    ensures Holds(ZERO, Ones(plan.scalars, plan.inputs), CHUNK_BITS * w, len)
  {
  }

  lemma AuxStarts(first: bool, p: Prover, plans: Plans, split: Flags, masks: Masks, points: Tables,
                  vecs: Masks, tails: Lists, bases: Tables, s: Pass, s': Pass, w: Writer)
    requires Planned(p, plans, split, points)
    requires Sized(first, p, plans, masks, vecs, tails, bases)
    requires AInput(first, s, plans.a, points.a, |p.inp|) && BInput(first, s, plans.b, points, |BPrefix(p)|)
    requires Writing(w, Ones(plans.a.scalars, plans.a.inputs), |p.inp|)
    requires s' == s.(a := Splitter(w, MaskAt(masks.a, w.cursor), s.a.scalars, s.a.at, s.a.at),
                      b := s.b.(mask := MaskAt(masks.b, s.b.w.cursor), point := s.b.at))
    ensures ADone(first, s', plans.a, masks.a, points.a, p, 0) && BDone(first, s', plans.b, masks.b, points, p, 0)
  {
    hide Inputting, Basing, Packed, Writing, Splitting;
    QueryStarts(s'.a, plans.a, masks.a);
    QueryStarts(s'.b, plans.b, masks.b);
  }

  /** Second pass over the public inputs: zero bits, whole tail. */
  method SecondPassInputs(first: bool, p: Prover, split: Flags, masks: Masks, points: Tables,
                          vecs: Masks, tails: Lists, bases: Tables, ghost plans: Plans) returns (s: Pass)
    requires Planned(p, plans, split, points) && Sized(first, p, plans, masks, vecs, tails, bases)
    ensures LAt(first, s.l, plans.l, masks.l, points.l, 0)
    ensures ADone(first, s, plans.a, masks.a, points.a, p, 0)
    ensures BDone(first, s, plans.b, masks.b, points, p, 0)
    ensures !first ==> BasesOf(s) == bases
  {
    hide AInput, BInput, LAt, ADone, BDone, Flooding, Packed, Sized, Holds, Writing, Ones, Words, Gather;
    hide AScalars, BScalars;
    var size := |p.inp|;
    ghost var ones := Ones(plans.a.scalars, plans.a.inputs);
    Chunks(size, Words(size));
    s := Pass(LState(ZERO, tails.l, 0, bases.l), Splitter(Writer(vecs.a, 0, 0, ZERO), ZERO, tails.a, 0, 0),
              Splitter(Writer(vecs.b, 0, 0, ZERO), ZERO, tails.b, 0, 0), bases.a, bases.b1, bases.b2);
    PassStarts(first, p, plans, split, masks, points, vecs, tails, bases, s);
    ghost var s1 := s;
    var aVec := vecs.a;
    for w := 0 to Words(size)
      invariant AInput(first, s, plans.a, points.a, Min(CHUNK_BITS * w, size))
      invariant BInput(first, s, plans.b, points, Dense(p, Min(CHUNK_BITS * w, size)))
      invariant s.l == s1.l && (!first ==> BasesOf(s) == bases)
      invariant Flooding(aVec, ZERO, ones, w, size)
    {
      Chunks(size, w);
      s := SecondPassInputChunk(first, p, s, split, points, w, Min(CHUNK_BITS, size - CHUNK_BITS * w), plans);
      NoOnes(plans.a, w, Min(CHUNK_BITS, size - CHUNK_BITS * w));
      FloodNext(aVec, ZERO, ones, w, size, ZERO);
      aVec := aVec[w := ZERO];
    }
    FloodDone(aVec, ZERO, ones, size);
    var aw := Writer(aVec, size / CHUNK_BITS, size % CHUNK_BITS, ZERO);
    ghost var before := s;
    s := s.(a := Splitter(aw, MaskAt(masks.a, aw.cursor), s.a.scalars, s.a.at, s.a.at),
            b := s.b.(mask := MaskAt(masks.b, s.b.w.cursor), point := s.b.at));
    AuxStarts(first, p, plans, split, masks, points, vecs, tails, bases, before, s, aw);
  }

  /** What the second pass leaves for one query: the ones to add, and the tail to multiply out. */
  ghost predicate QueryDone(plan: Plan, vec: seq<Word>, tail: seq<int>) {
    && plan.Ok() && tail == Select(plan.Tail(), plan.Keep())
    && (plan.split ==> Packed(vec, Ones(plan.scalars, plan.inputs)))
  }

  ghost predicate BasesDone(plan: Plan, bases: seq<int>, points: seq<int>) {
    plan.split ==> |points| == |plan.mask| && bases == Select(points, plan.mask)
  }

  lemma QueryEnds(q: Splitter, plan: Plan, maskWords: seq<Word>)
    requires Splitting(q, plan, maskWords, |plan.mask|)
    ensures q.scalars == Select(plan.Tail(), plan.Keep())
    ensures plan.split ==> Writing(q.w, Ones(plan.scalars, plan.inputs), |Ones(plan.scalars, plan.inputs)|)
  {
    FillDone(q.scalars, q.at, plan.Tail(), plan.Keep());
  }

  lemma BasesEnd(first: bool, bases: seq<int>, points: seq<int>, plan: Plan)
    requires first && |points| == |plan.mask| && Basing(first, bases, points, plan, |plan.mask|)
    ensures BasesDone(plan, bases, points)
  {
    if plan.split {
      assert plan.mask[..|plan.mask|] == plan.mask;
      FillDone(bases, CountTrue(plan.mask), points, plan.mask);
    }
  }

  lemma PassEnds(first: bool, p: Prover, plans: Plans, split: Flags, masks: Masks, points: Tables, s: Pass)
    requires Planned(p, plans, split, points)
    requires LAt(first, s.l, plans.l, masks.l, points.l, |p.aux|)
    requires ADone(first, s, plans.a, masks.a, points.a, p, |p.aux|)
    requires BDone(first, s, plans.b, masks.b, points, p, |p.aux|)
    ensures plans.l.split ==> s.l.scalars == Select(plans.l.Tail(), plans.l.Keep())
    ensures Splitting(s.a, plans.a, masks.a, |plans.a.mask|) && Splitting(s.b, plans.b, masks.b, |plans.b.mask|)
    ensures first ==> BasesDone(plans.l, s.l.bases, points.l) && BasesDone(plans.a, s.aBases, points.a)
    ensures first ==> BasesDone(plans.b, s.b1Bases, points.b1) && BasesDone(plans.b, s.b2Bases, points.b2)
  {
    hide Splitting, Basing, Filling, BasesDone, Packed;
    if plans.l.split {
      FillDone(s.l.scalars, s.l.at, Tails(plans.l.scalars, 0), plans.l.mask);
    }
    if first {
      LBasesEnd(s.l, plans.l, masks.l, points.l);
      BasesEnd(first, s.aBases, points.a, plans.a);
      BasesEnd(first, s.b1Bases, points.b1, plans.b);
      BasesEnd(first, s.b2Bases, points.b2, plans.b);
    }
  }

  lemma LBasesEnd(l: LState, plan: Plan, maskWords: seq<Word>, points: seq<int>)
    requires plan.Ok() && LAt(true, l, plan, maskWords, points, |plan.mask|)
    ensures BasesDone(plan, l.bases, points)
  {
    if plan.split {
      FillDone(l.bases, l.at, points, plan.mask);
    }
  }

  lemma LVecSized(first: bool, p: Prover, plans: Plans, masks: Masks, vecs: Masks, tails: Lists, bases: Tables)
    requires p.Mapped() && Sized(first, p, plans, masks, vecs, tails, bases)
    ensures |vecs.l| == Words(|p.aux|)
  {
  }

  /** The second pass of one circuit: batch-addition bits and tail scalars, and the bases from circuit 0. */
  method SecondPass(first: bool, p: Prover, split: Flags, masks: Masks, points: Tables,
                    vecs: Masks, tails: Lists, bases: Tables, ghost plans: Plans)
    returns (vecs': Masks, tails': Lists, bases': Tables)
    requires Planned(p, plans, split, points) && Sized(first, p, plans, masks, vecs, tails, bases)
    ensures split.l ==> QueryDone(plans.l, vecs'.l, tails'.l)
    ensures QueryDone(plans.a, vecs'.a, tails'.a) && QueryDone(plans.b, vecs'.b, tails'.b)
    ensures first ==> BasesDone(plans.l, bases'.l, points.l) && BasesDone(plans.a, bases'.a, points.a)
    ensures first ==> BasesDone(plans.b, bases'.b1, points.b1) && BasesDone(plans.b, bases'.b2, points.b2)
    ensures !first ==> bases' == bases
  {
    hide Splitting, LAt, ADone, BDone, Sized, BasesDone, Packed, Writing, Gather;
    LVecSized(first, p, plans, masks, vecs, tails, bases);
    var s := SecondPassInputs(first, p, split, masks, points, vecs, tails, bases, plans);
    var lVec;
    s, lVec := SecondPassAux(first, p, s, split, masks, points, vecs.l, plans);
    PassEnds(first, p, plans, split, masks, points, s);
    QueryEnds(s.a, plans.a, masks.a);
    QueryEnds(s.b, plans.b, masks.b);
    var aVec, bVec := s.a.w.vec, s.b.w.vec;
    if split.a {
      aVec := FlushBits(s.a.w, Ones(plans.a.scalars, plans.a.inputs));
    }
    if split.b {
      bVec := FlushBits(s.b.w, Ones(plans.b.scalars, plans.b.inputs));
    }
    vecs', tails', bases' := Masks(lVec, aVec, bVec), Lists(s.l.scalars, s.a.scalars, s.b.scalars), BasesOf(s);
  }
}
