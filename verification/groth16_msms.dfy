/** The multi-scalar multiplications of a batch of proofs, split or not. */
module Groth16Msms {
  import opened Common
  import opened MsmMath
  import opened BitWords
  import opened Groth16Split

  const GPU_DIV := 1024
  const NUM_BATCHES := 8

  /** Points per batch: an eighth of the points, in whole units of GPU_DIV. */
  function BatchSize(points: nat): nat {
    ((points + GPU_DIV - 1) / GPU_DIV + NUM_BATCHES - 1) / NUM_BATCHES * GPU_DIV
  }

  /** Every batch starts at a whole bitmap word, eight of them are enough, and no fewer units would be. */
  lemma BatchSizeFits(points: nat)
    ensures BatchSize(points) % CHUNK_BITS == 0 && BatchSize(points) % 1024 == 0
    ensures points <= 8 * BatchSize(points)
    ensures points > 0 ==> BatchSize(points) > 0
    ensures BatchSize(points) > 0 ==> 8 * (BatchSize(points) - 1024) < points
  {
    var units := (points + GPU_DIV - 1) / GPU_DIV;
    var each := (units + NUM_BATCHES - 1) / NUM_BATCHES;
    assert each * GPU_DIV == CHUNK_BITS * (16 * each);
  }

  /** One query's bit vectors and tail scalars, a row per circuit. */
  class SplitVectors {
    var bitVector: seq<seq<Word>>
    var tailScalars: seq<seq<int>>
    const batchSize: nat

    constructor (circuits: nat, points: nat)
      ensures |bitVector| == circuits && forall c :: 0 <= c < circuits ==> |bitVector[c]| == Words(points)
      ensures tailScalars == seq(circuits, _ => []) && batchSize == BatchSize(points)
    {
      bitVector := seq(circuits, _ => seq(Words(points), _ => ZERO));
      tailScalars := seq(circuits, _ => []);
      batchSize := BatchSize(points);
    }

    /** Make room for the significant scalars of every circuit. */
    method TailMsmsResize(size: nat)
      modifies this`tailScalars
      ensures |tailScalars| == |old(tailScalars)|
      ensures forall c :: 0 <= c < |tailScalars| ==> |tailScalars[c]| == size
    {
      tailScalars := seq(|tailScalars|, _ => seq(size, _ => 0));
    }
  }

  /** The bits a kernel sees: `amount` of them from a word on. */
  function Window(words: seq<Word>, word: nat, amount: nat): (r: seq<bool>)
    requires CHUNK_BITS * word + amount <= CHUNK_BITS * |words|
    ensures |r| == amount
  {
    seq(amount, i requires 0 <= i < amount => Bit(words, CHUNK_BITS * word + i))
  }

  /** The kernel's sum, on top of the buckets or over whatever they held. */
  function BatchAddition(g: Group, buckets: int, points: seq<int>, bits: seq<bool>, accumulate: bool): int
    requires |points| == |bits|
  {
    if accumulate then g.add(buckets, BitSum(g, points, bits)) else BitSum(g, points, bits)
  }

  lemma WindowBits(words: seq<Word>, s: seq<bool>, word: nat, amount: nat)
    requires Packed(words, s) && CHUNK_BITS * word + amount <= |s|
    ensures CHUNK_BITS * word + amount <= CHUNK_BITS * |words|
    ensures Window(words, word, amount) == s[CHUNK_BITS * word..CHUNK_BITS * word + amount]
  {
    forall i | 0 <= i < amount ensures Window(words, word, amount)[i] == s[CHUNK_BITS * word + i] {
      BitOf(words, s, CHUNK_BITS * word + i);
    }
  }

  lemma AddBatch(g: Group, points: seq<int>, bits: seq<bool>, cursor: nat, amount: nat)
    requires IsModule(g) && |points| == |bits| && cursor + amount <= |points|
    ensures BitSum(g, points[..cursor + amount], bits[..cursor + amount])
            == g.add(BitSum(g, points[..cursor], bits[..cursor]),
                     BitSum(g, points[cursor..cursor + amount], bits[cursor..cursor + amount]))
    ensures BitSum(g, points[0..amount], bits[0..amount]) == BitSum(g, points[..amount], bits[..amount])
  {
    BitSumConcat(g, points[..cursor], points[cursor..cursor + amount], bits[..cursor], bits[cursor..cursor + amount]);
    assert points[..cursor + amount] == points[..cursor] + points[cursor..cursor + amount];
    assert bits[..cursor + amount] == bits[..cursor] + bits[cursor..cursor + amount];
    assert points[0..amount] == points[..amount] && bits[0..amount] == bits[..amount];
  }

  /** Whole batches up to the last one, so the cursor is at a word and the batches stay within eight. */
  ghost predicate Batched(n: nat, size: nat, batch: nat, cursor: nat) {
    && cursor <= n && size * NUM_BATCHES >= n && size % CHUNK_BITS == 0 && (n > 0 ==> size > 0)
    && (cursor < n ==> cursor == size * batch)
    && batch <= NUM_BATCHES && (batch == 0 <==> cursor == 0)
  }

  lemma MulMonotone(size: nat, a: nat, b: nat)
    ensures a <= b ==> size * a <= size * b
  {
  }

  lemma NextBatch(n: nat, size: nat, batch: nat, cursor: nat)
    requires Batched(n, size, batch, cursor) && cursor < n
    ensures cursor % CHUNK_BITS == 0 && Batched(n, size, batch + 1, cursor + Min(n - cursor, size))
  {
    assert size == CHUNK_BITS * (size / CHUNK_BITS);
    assert cursor == CHUNK_BITS * (size / CHUNK_BITS * batch);
    assert size * (batch + 1) == size * batch + size;
    MulMonotone(size, NUM_BATCHES, batch);
  }

  /** Add up the marked points batch by batch, in at most eight batches. Without any point no batch
    * runs, and what comes back is whatever the buckets held.
    */
  method ExecuteBatchAddition(g: Group, points: seq<int>, vec: seq<Word>, batchSize: nat, stale: int,
                              ghost bits: seq<bool>) returns (sum: int, batch: nat)
    requires IsModule(g) && Packed(vec, bits) && |bits| == |points| && batchSize == BatchSize(|points|)
    ensures sum == if points == [] then stale else BitSum(g, points, bits)
    ensures batch <= NUM_BATCHES
  {
    hide Batched, BatchSize, Packed, BitSum;
    BatchingStarts(|points|);
    var buckets, npoints := stale, |points|;
    batch := 0;
    while npoints > 0
      invariant 0 <= npoints <= |points| && Batched(|points|, batchSize, batch, |points| - npoints)
      invariant batch > 0 <==> npoints < |points|
      invariant buckets == if batch == 0 then stale
                           else BitSum(g, points[..|points| - npoints], bits[..|points| - npoints])
    {
      ghost var done := |points| - npoints;
      NextBatch(|points|, batchSize, batch, done);
      var amount := Min(npoints, batchSize);
      var cursor := batch * batchSize;
      AtBatch(|points|, batchSize, batch, done);
      AddBatch(g, points, bits, cursor, amount);
      WindowBits(vec, bits, cursor / CHUNK_BITS, amount);
      buckets := BatchAddition(g, buckets, points[cursor..cursor + amount],
                               Window(vec, cursor / CHUNK_BITS, amount), batch > 0);
      npoints, batch := npoints - amount, batch + 1;
    }
    assert points[..|points|] == points && bits[..|points|] == bits;
    AtMostEight(|points|, batchSize, batch);
    sum := buckets;
  }

  /** A query without points: the sum should be zero, but comes back as the buckets happened to be. */
  method EmptyQuery() returns (sum: int)
    ensures sum == 1 != BitSum(INTEGERS, [], [])
  {
    IntegersAreModule();
    var batch;
    sum, batch := ExecuteBatchAddition(INTEGERS, [], [], BatchSize(0), 1, []);
  }

  lemma BatchingStarts(n: nat)
    ensures Batched(n, BatchSize(n), 0, 0)
  {
    BatchSizeFits(n);
  }

  lemma AtBatch(n: nat, size: nat, batch: nat, cursor: nat)
    requires Batched(n, size, batch, cursor) && cursor < n
    ensures batch * size == cursor && size > 0 && (batch == 0 <==> cursor == 0)
  {
  }

  lemma AtMostEight(n: nat, size: nat, batch: nat)
    requires Batched(n, size, batch, n)
    ensures batch <= NUM_BATCHES
  {
  }

  /** At least one circuit, all with the same sizes and density maps, and a point for every scalar. */
  ghost predicate Shared(ps: seq<Prover>, points: Tables) {
    && |ps| > 0
    && (forall c :: 0 <= c < |ps| ==> ps[c].Mapped())
    && (forall c :: 0 <= c < |ps| ==>
          ps[c] == ps[0].(inp := ps[c].inp,
                          aux := ps[c].aux) && |ps[c].inp| == |ps[0].inp| && |ps[c].aux| == |ps[0].aux|)
    && |points.l| == |ps[0].aux| && |points.a| == |AScalars(ps[0])|
    && |points.b1| == |points.b2| == |BScalars(ps[0])|
  }

  lemma {:induction false} GatherLength(values: seq<int>, values': seq<int>, density: seq<Word>, t: nat)
    requires t <= |values| == |values'| && |density| == Words(|values|)
    ensures |Gather(values, density, t)| == |Gather(values', density, t)|
  {
    if t > 0 { GatherLength(values, values', density, t - 1); }
  }

  lemma SameSizes(ps: seq<Prover>, points: Tables, c: nat)
    requires Shared(ps, points) && c < |ps|
    ensures ps[c].Mapped() && |ps[c].aux| == |points.l| && |ps[c].inp| == |ps[0].inp|
    ensures |AScalars(ps[c])| == |points.a| && |BScalars(ps[c])| == |points.b1| == |points.b2|
    ensures |BPrefix(ps[c])| == |BPrefix(ps[0])|
  {
    GatherLength(ps[c].inp, ps[0].inp, ps[0].bInpDensity, |ps[0].inp|);
    GatherLength(ps[c].aux, ps[0].aux, ps[0].aAuxDensity, |ps[0].aux|);
    GatherLength(ps[c].aux, ps[0].aux, ps[0].bAuxDensity, |ps[0].aux|);
  }

  ghost function LSigs(p: Prover): seq<bool> { Sigs(p.aux, 0) }

  ghost function ASigs(p: Prover): seq<bool> { if p.Mapped() then Sigs(AScalars(p), |p.inp|) else [] }

  ghost function BSigs(p: Prover): seq<bool> { if p.Mapped() then Sigs(BScalars(p), |BPrefix(p)|) else [] }

  ghost function Each(ps: seq<Prover>, sigs: Prover -> seq<bool>): (r: seq<seq<bool>>)
    ensures |r| == |ps|
  {
    seq(|ps|, c requires 0 <= c < |ps| => sigs(ps[c]))
  }

  /** The first pass over every circuit. */
  method FirstPasses(ps: seq<Prover>, points: Tables, l0: seq<seq<Word>>, a0: seq<seq<Word>>, b0: seq<seq<Word>>)
    returns (l: seq<seq<Word>>, a: seq<seq<Word>>, b: seq<seq<Word>>)
    requires Shared(ps, points) && |l0| == |a0| == |b0| == |ps|
    requires forall c :: 0 <= c < |ps| ==>
      |l0[c]| == Words(|points.l|) && |a0[c]| == Words(|points.a|) && |b0[c]| == Words(|points.b1|)
    ensures |l| == |a| == |b| == |ps|
    ensures forall c :: 0 <= c < |ps| ==>
      Packed(l[c], LSigs(ps[c])) && Packed(a[c], ASigs(ps[c])) && Packed(b[c], BSigs(ps[c]))
  {
    hide Packed, Writing, Sigs, Marking;
    l, a, b := l0, a0, b0;
    for c := 0 to |ps|
      invariant |l| == |a| == |b| == |ps|
      invariant forall d :: c <= d < |ps| ==> l[d] == l0[d] && a[d] == a0[d] && b[d] == b0[d]
      invariant forall d :: 0 <= d < c ==>
        Packed(l[d], LSigs(ps[d])) && Packed(a[d], ASigs(ps[d])) && Packed(b[d], BSigs(ps[d]))
    {
      SameSizes(ps, points, c);
      var wa, wb := FirstPassInputs(ps[c], a[c], b[c]);
      var lc, ac, bc := FirstPassAux(ps[c], l[c], wa, wb);
      l, a, b := l[c := lc], a[c := ac], b[c := bc];
    }
  }

  /** What the circuits share: which queries are split, and the merged masks. */
  ghost function PlansOf(ps: seq<Prover>, c: nat, split: Flags): Plans
    requires c < |ps| && ps[c].Mapped() && ps[0].Mapped()
  {
    Plans(Plan(split.l, ps[c].aux, 0, Union(Each(ps, LSigs), |ps[0].aux|)),
          Plan(split.a, AScalars(ps[c]), |ps[c].inp|, Union(Each(ps, ASigs), |AScalars(ps[0])|)),
          Plan(split.b, BScalars(ps[c]), |BPrefix(ps[c])|, Union(Each(ps, BSigs), |BScalars(ps[0])|)))
  }

  /** A mask selects the inputs, and of the rest exactly the scalars that are neither zero nor one in some
    * circuit.
    */
  ghost predicate Selects(ps: seq<Prover>, mask: seq<bool>, inputs: nat, scalars: Prover -> seq<int>) {
    && (forall c :: 0 <= c < |ps| ==> |scalars(ps[c])| == |mask|)
    && forall i :: 0 <= i < |mask| ==>
         (mask[i] <==> i < inputs || exists c :: 0 <= c < |ps| && scalars(ps[c])[i] !in [0, 1])
  }

  lemma UnionSelects(ps: seq<Prover>, sigs: Prover -> seq<bool>, inputs: nat, scalars: Prover -> seq<int>, n: nat)
    requires |ps| > 0
    requires forall c :: 0 <= c < |ps| ==> |scalars(ps[c])| == n && sigs(ps[c]) == Sigs(scalars(ps[c]), inputs)
    ensures Selects(ps, Union(Each(ps, sigs), n), inputs, scalars)
  {
    var each := Each(ps, sigs);
    forall i | 0 <= i < n
      ensures Union(each, n)[i] <==> i < inputs || exists c :: 0 <= c < |ps| && scalars(ps[c])[i] !in [0, 1]
    {
      assert forall c :: 0 <= c < |ps| ==>
        each[c] == sigs(ps[c]) && (each[c][i] <==> i < inputs || scalars(ps[c])[i] !in [0, 1]);
      if i < inputs { assert each[0][i]; }
    }
  }

  /** A query's scalars, in order. */
  ghost function LList(p: Prover): seq<int> { p.aux }
  ghost function AList(p: Prover): seq<int> { if p.Mapped() then AScalars(p) else [] }
  ghost function BList(p: Prover): seq<int> { if p.Mapped() then BScalars(p) else [] }

  /** Main result: the masks by which all circuits are split select the inputs and what is neither zero nor one in
    * any circuit, in the order of each query.
    */
  lemma MasksSelect(ps: seq<Prover>, points: Tables, split: Flags)
    requires Shared(ps, points)
    ensures ps[0].Mapped()
    ensures
      var plans := PlansOf(ps, 0, split);
      && |plans.l.mask| == |points.l| && Selects(ps, plans.l.mask, 0, LList)
      && |plans.a.mask| == |points.a|
      && Selects(ps, plans.a.mask, |ps[0].inp|, AList)
      && |plans.b.mask| == |points.b1|
      && Selects(ps, plans.b.mask, |BPrefix(ps[0])|, BList)
  {
    hide Gather, Query, AScalars, BScalars, BPrefix, Words, CountTrue, Selects, Sigs, Union, Each;
    forall c | 0 <= c < |ps|
      ensures ps[c].Mapped() && |ps[c].aux| == |points.l| && |ps[c].inp| == |ps[0].inp|
      ensures |AScalars(ps[c])| == |points.a| && |BScalars(ps[c])| == |points.b1|
      ensures |BPrefix(ps[c])| == |BPrefix(ps[0])|
    {
      SameSizes(ps, points, c);
    }
    UnionSelects(ps, LSigs, 0, LList, |points.l|);
    UnionSelects(ps, ASigs, |ps[0].inp|, AList, |points.a|);
    UnionSelects(ps, BSigs, |BPrefix(ps[0])|, BList, |points.b1|);
  }

  /** The mask covers what each circuit marks: its inputs, and its scalars other than zero and one. */
  ghost predicate Covers(plan: Plan) {
    plan.Ok() && forall i :: 0 <= i < |plan.scalars| ==> (Sigs(plan.scalars, plan.inputs)[i] ==> plan.mask[i])
  }

  lemma UnionCovers(ps: seq<Prover>, sigs: Prover -> seq<bool>, plan: Plan, c: nat)
    requires c < |ps| && sigs(ps[c]) == Sigs(plan.scalars, plan.inputs) && plan.inputs <= |plan.scalars|
    requires plan.mask == Union(Each(ps, sigs), |plan.scalars|)
    ensures Covers(plan)
  {
    forall i | 0 <= i < |plan.scalars| && Sigs(plan.scalars, plan.inputs)[i] ensures plan.mask[i] {
      assert Each(ps, sigs)[c][i];
    }
    forall i | 0 <= i < plan.inputs ensures plan.mask[i] {
      assert Sigs(plan.scalars, plan.inputs)[i];
    }
  }

  lemma PlansFit(ps: seq<Prover>, points: Tables, c: nat, split: Flags)
    requires Shared(ps, points) && c < |ps|
    ensures ps[c].Mapped() && Planned(ps[c], PlansOf(ps, c, split), split, points)
    ensures var plans := PlansOf(ps, c, split); Covers(plans.l) && Covers(plans.a) && Covers(plans.b)
  {
    hide Sigs, Union, Each, Covers, Gather;
    SameSizes(ps, points, c);
    SameSizes(ps, points, 0);
    var plans := PlansOf(ps, c, split);
    UnionCovers(ps, LSigs, plans.l, c);
    UnionCovers(ps, ASigs, plans.a, c);
    UnionCovers(ps, BSigs, plans.b, c);
    CoversOk(plans.l);
    CoversOk(plans.a);
    CoversOk(plans.b);
  }

  lemma CoversOk(plan: Plan)
    requires Covers(plan)
    ensures plan.Ok()
  {
  }

  /** The split sum of a query is its whole sum. */
  lemma SplitQuery(g: Group, plan: Plan, points: seq<int>)
    requires IsModule(g) && Covers(plan) && |points| == |plan.scalars|
    ensures g.add(Msm(g, Select(points, plan.mask), Select(Tails(plan.scalars, plan.inputs), plan.mask)),
                  BitSum(g, points, Ones(plan.scalars, plan.inputs)))
            == Msm(g, points, plan.scalars)
  {
    SplitIsWhole(g, points, plan.scalars, Tails(plan.scalars, plan.inputs),
                 Ones(plan.scalars, plan.inputs), plan.mask);
  }

  lemma {:induction false} SelectAll(s: seq<int>)
    ensures Select(s, Everything(|s|)) == s
  {
    if s != [] {
      var n := |s| - 1;
      SelectAll(s[..n]);
      assert Everything(|s|)[..n] == Everything(n);
    }
  }

  lemma {:induction false} CountEverything(n: nat)
    ensures CountTrue(Everything(n)) == n
  {
    if n > 0 {
      CountEverything(n - 1);
      assert Everything(n)[..n - 1] == Everything(n - 1);
    }
  }

  /** Per circuit, what batch addition and the tail multiplications are given. */
  datatype Split = Split(flags: Flags, l: seq<seq<Word>>, a: seq<seq<Word>>, b: seq<seq<Word>>,
                         lTail: seq<seq<int>>, aTail: seq<seq<int>>, bTail: seq<seq<int>>, bases: Tables)

  ghost predicate RowsFit(x: Split, n: nat) {
    |x.l| == |x.a| == |x.b| == |x.lTail| == |x.aTail| == |x.bTail| == n
  }

  ghost predicate CircuitSized(ps: seq<Prover>, x: Split, masks: Masks, c: nat)
    requires c < |ps| && ps[c].Mapped() && ps[0].Mapped() && RowsFit(x, |ps|)
  {
    Sized(c == 0, ps[c], PlansOf(ps, c, x.flags), masks, Masks(x.l[c], x.a[c], x.b[c]),
          Lists(x.lTail[c], x.aTail[c], x.bTail[c]), x.bases)
  }

  ghost predicate CircuitDone(plans: Plans, x: Split, c: nat)
    requires RowsFit(x, |x.l|) && c < |x.l|
  {
    && (x.flags.l ==> QueryDone(plans.l, x.l[c], x.lTail[c]))
    && QueryDone(plans.a, x.a[c], x.aTail[c]) && QueryDone(plans.b, x.b[c], x.bTail[c])
  }

  ghost predicate TablesDone(plans: Plans, bases: Tables, points: Tables) {
    && BasesDone(plans.l, bases.l, points.l) && BasesDone(plans.a, bases.a, points.a)
    && BasesDone(plans.b, bases.b1, points.b1) && BasesDone(plans.b, bases.b2, points.b2)
  }

  lemma SizedWithoutBases(p: Prover, plans: Plans, masks: Masks, vecs: Masks, tails: Lists, b: Tables, b': Tables)
    requires p.Mapped() && Sized(false, p, plans, masks, vecs, tails, b)
    ensures Sized(false, p, plans, masks, vecs, tails, b')
  {
  }

  lemma TablesShared(ps: seq<Prover>, points: Tables, c: nat, split: Flags, bases: Tables)
    requires Shared(ps, points) && c < |ps| && ps[c].Mapped()
    requires TablesDone(PlansOf(ps, 0, split), bases, points)
    ensures TablesDone(PlansOf(ps, c, split), bases, points)
  {
  }

  /** The second pass over every circuit. */
  method SecondPasses(ps: seq<Prover>, points: Tables, masks: Masks, x0: Split) returns (x: Split)
    requires Shared(ps, points) && RowsFit(x0, |ps|)
    requires forall c :: 0 <= c < |ps| ==> CircuitSized(ps, x0, masks, c)
    ensures RowsFit(x, |ps|) && x.flags == x0.flags
    ensures forall c :: 0 <= c < |ps| ==> CircuitDone(PlansOf(ps, c, x.flags), x, c)
    ensures TablesDone(PlansOf(ps, 0, x.flags), x.bases, points)
  {
    hide QueryDone, BasesDone, Sized, Planned, PlansOf;
    x := x0;
    for c := 0 to |ps|
      invariant RowsFit(x, |ps|) && x.flags == x0.flags
      invariant forall d :: c <= d < |ps| ==>
        x.l[d] == x0.l[d] && x.a[d] == x0.a[d] && x.b[d] == x0.b[d]
        && x.lTail[d] == x0.lTail[d] && x.aTail[d] == x0.aTail[d] && x.bTail[d] == x0.bTail[d]
      invariant forall d :: 0 <= d < c ==> CircuitDone(PlansOf(ps, d, x.flags), x, d)
      invariant if c == 0 then x.bases == x0.bases else TablesDone(PlansOf(ps, 0, x.flags), x.bases, points)
    {
      PlansFit(ps, points, c, x.flags);
      assert CircuitSized(ps, x0, masks, c);
      if c > 0 {
        SizedWithoutBases(ps[c], PlansOf(ps, c, x.flags), masks, Masks(x.l[c], x.a[c], x.b[c]),
                          Lists(x.lTail[c], x.aTail[c], x.bTail[c]), x0.bases, x.bases);
      }
      var v, t, b := SecondPass(c == 0, ps[c], x.flags, masks, points, Masks(x.l[c], x.a[c], x.b[c]),
                                Lists(x.lTail[c], x.aTail[c], x.bTail[c]), x.bases, PlansOf(ps, c, x.flags));
      x := Split(x.flags, x.l[c := v.l], x.a[c := v.a], x.b[c := v.b],
                 x.lTail[c := t.l], x.aTail[c := t.a], x.bTail[c := t.b], b);
    }
  }

  /** One result per query of a circuit; the B query has one in each group. */
  datatype Results = Results(l: int, a: int, b1: int, b2: int)

  /** A result is the full product; only a query without points returns stale buckets. */
  predicate Right(g: Group, points: seq<int>, scalars: seq<int>, stale: int, r: int)
    requires |points| == |scalars|
  {
    if points == [] then r == stale else r == Msm(g, points, scalars)
  }

  lemma QueryRight(g: Group, plan: Plan, points: seq<int>, bases: seq<int>, vec: seq<Word>, tail: seq<int>)
    requires IsModule(g) && Covers(plan) && |points| == |plan.scalars|
    requires QueryDone(plan, vec, tail) && BasesDone(plan, bases, points)
    ensures |tail| == if plan.split then |bases| else |points|
    ensures plan.split ==> g.add(Msm(g, bases, tail), BitSum(g, points, Ones(plan.scalars, plan.inputs)))
                           == Msm(g, points, plan.scalars)
    ensures !plan.split ==> Msm(g, points, tail) == Msm(g, points, plan.scalars)
  {
    hide Ones, Sigs, Tails;
    if plan.split {
      SplitQuery(g, plan, points);
    } else {
      SelectAll(plan.scalars);
    }
  }

  /** Batch addition, the tail multiplication and their sum, for one query of one circuit. */
  method SumQuery(g: Group, split: bool, points: seq<int>, bases: seq<int>, vec: seq<Word>, tail: seq<int>,
                  batchSize: nat, stale: int, ghost plan: Plan) returns (r: int)
    requires IsModule(g) && Covers(plan) && |points| == |plan.scalars| && split == plan.split
    requires QueryDone(plan, vec, tail) && BasesDone(plan, bases, points) && batchSize == BatchSize(|points|)
    requires points == [] ==> split
    ensures Right(g, points, plan.scalars, stale, r)
  {
    hide Ones, Sigs, Tails, Packed, Covers, BatchSize, Filled;
    QueryRight(g, plan, points, bases, vec, tail);
    if split {
      r := Msm(g, bases, tail);
      var added, _ := ExecuteBatchAddition(g, points, vec, batchSize, stale, Ones(plan.scalars, plan.inputs));
      r := g.add(r, added);
      if points == [] {
        assert Msm(g, bases, tail) == g.zero;
        assert g.add(g.zero, stale) == g.add(stale, g.zero);
      }
    } else {
      r := Msm(g, points, tail);
    }
  }

  /** How many circuits GPU `tid` of `gpus` serves, and its first one. */
  function Share(circuits: nat, gpus: nat, tid: nat): nat
    requires gpus > 0
  {
    circuits / gpus + (if tid < circuits % gpus then 1 else 0)
  }

  function FirstCircuit(circuits: nat, gpus: nat, tid: nat): nat
    requires gpus > 0
  {
    tid * Share(circuits, gpus, tid) + (if tid >= circuits % gpus then circuits % gpus else 0)
  }

  /** The shares follow one another and cover every circuit once, and none is more than one larger than
    * another.
    */
  lemma SharesTile(circuits: nat, gpus: nat, tid: nat)
    requires gpus > 0
    ensures forall other: nat :: Share(circuits, gpus, other) <= Share(circuits, gpus, tid) + 1
    ensures FirstCircuit(circuits, gpus, 0) == 0 && FirstCircuit(circuits, gpus, gpus) == circuits
    ensures FirstCircuit(circuits, gpus, tid + 1) == FirstCircuit(circuits, gpus, tid) + Share(circuits, gpus, tid)
  {
    var q, r := circuits / gpus, circuits % gpus;
    assert (tid + 1) * q == tid * q + q && (tid + 1) * (q + 1) == tid * (q + 1) + q + 1;
    assert tid * (q + 1) == tid * q + tid;
    assert circuits == gpus * q + r;
  }

  lemma {:induction false} SharesBound(circuits: nat, gpus: nat, tid: nat)
    requires gpus > 0 && tid <= gpus
    ensures FirstCircuit(circuits, gpus, tid) <= circuits
    decreases gpus - tid
  {
    hide FirstCircuit, Share;
    SharesTile(circuits, gpus, tid);
    if tid < gpus { SharesBound(circuits, gpus, tid + 1); }
  }

  /** Every query of a circuit is its full multi-scalar multiplication, in both groups for B. */
  ghost predicate AllRight(g1: Group, g2: Group, p: Prover, points: Tables, stale: Results, r: Results)
  {
    && p.Mapped() && |points.l| == |p.aux| && |points.a| == |AScalars(p)|
    && |points.b1| == |points.b2| == |BScalars(p)|
    && Right(g1, points.l, p.aux, stale.l, r.l) && Right(g1, points.a, AScalars(p), stale.a, r.a)
    && Right(g1, points.b1, BScalars(p), stale.b1, r.b1) && Right(g2, points.b2, BScalars(p), stale.b2, r.b2)
  }

  lemma WholeTail(plan: Plan, vec: seq<Word>)
    requires plan.Ok() && !plan.split
    ensures QueryDone(plan, vec, plan.scalars)
  {
    SelectAll(plan.scalars);
  }

  /** An empty query has nothing to leave in its tail, so it counts as split. */
  ghost predicate EmptySplit(flags: Flags, points: Tables) {
    && (points.l == [] ==> flags.l) && (points.a == [] ==> flags.a)
    && (points.b1 == [] ==> flags.b) && (points.b2 == [] ==> flags.b)
  }

  /** The four results of one circuit. */
  method SumCircuit(g1: Group, g2: Group, ps: seq<Prover>, points: Tables, c: nat, x: Split,
                    lSize: nat, aSize: nat, bSize: nat, stale: Results) returns (r: Results)
    requires IsModule(g1) && IsModule(g2) && Shared(ps, points) && c < |ps| && RowsFit(x, |ps|)
    requires lSize == BatchSize(|points.l|) && aSize == BatchSize(|points.a|) && bSize == BatchSize(|points.b1|)
    requires EmptySplit(x.flags, points)
    requires CircuitDone(PlansOf(ps, c, x.flags), x, c) && TablesDone(PlansOf(ps, 0, x.flags), x.bases, points)
    ensures AllRight(g1, g2, ps[c], points, stale, r)
  {
    hide QueryDone, BasesDone, Covers, BatchSize, Right, Union, Each;
    ghost var plans := PlansOf(ps, c, x.flags);
    PlansFit(ps, points, c, x.flags);
    TablesShared(ps, points, c, x.flags, x.bases);
    var lTail := if x.flags.l then x.lTail[c] else ps[c].aux;
    if !x.flags.l {
      WholeTail(plans.l, x.l[c]);
    }
    var l := SumQuery(g1, x.flags.l, points.l, x.bases.l, x.l[c], lTail, lSize, stale.l, plans.l);
    var a := SumQuery(g1, x.flags.a, points.a, x.bases.a, x.a[c], x.aTail[c], aSize, stale.a, plans.a);
    var b1 := SumQuery(g1, x.flags.b, points.b1, x.bases.b1, x.b[c], x.bTail[c], bSize, stale.b1, plans.b);
    var b2 := SumQuery(g2, x.flags.b, points.b2, x.bases.b2, x.b[c], x.bTail[c], bSize, stale.b2, plans.b);
    r := Results(l, a, b1, b2);
  }

  lemma MaskedSizes(ps: seq<Prover>, points: Tables, masks: Masks, x: Split, c: nat)
    requires Shared(ps, points) && c < |ps| && RowsFit(x, |ps|) && ps[c].Mapped() && ps[0].Mapped()
    requires |x.l[c]| == Words(|points.l|) && |x.a[c]| == Words(|points.a|) && |x.b[c]| == Words(|points.b1|)
    requires
      var plans := PlansOf(ps, 0, x.flags);
      && Packed(masks.l, plans.l.mask) && Packed(masks.a, plans.a.mask) && Packed(masks.b, plans.b.mask)
      && (x.flags.l ==> |x.lTail[c]| == |x.bases.l| == CountTrue(plans.l.mask))
      && |x.aTail[c]| == (if x.flags.a then CountTrue(plans.a.mask) else |points.a|)
      && |x.bTail[c]| == (if x.flags.b then CountTrue(plans.b.mask) else |points.b1|)
      && (x.flags.a ==> |x.bases.a| == CountTrue(plans.a.mask))
      && (x.flags.b ==> |x.bases.b1| == |x.bases.b2| == CountTrue(plans.b.mask))
    ensures CircuitSized(ps, x, masks, c)
  {
    hide Packed, Union, Each, Words;
    SameSizes(ps, points, c);
    SameSizes(ps, points, 0);
    CountEverything(|points.a|);
    CountEverything(|points.b1|);
  }

  /** Decide each query's split by its popcount and make room for tails and bases. */
  method Resize(ps: seq<Prover>, points: Tables, masks: Masks, l: SplitVectors, a: SplitVectors, b: SplitVectors,
                lCount: nat, aCount: nat, bCount: nat) returns (x: Split)
    requires Shared(ps, points) && l != a && l != b && a != b
    requires |l.bitVector| == |a.bitVector| == |b.bitVector| == |ps|
    requires |l.tailScalars| == |a.tailScalars| == |b.tailScalars| == |ps|
    requires forall c :: 0 <= c < |ps| ==>
      |l.bitVector[c]| == Words(|points.l|) && |a.bitVector[c]| == Words(|points.a|)
      && |b.bitVector[c]| == Words(|points.b1|)
    requires
      var plans := PlansOf(ps, 0, Flags(true, true, true));
      && Packed(masks.l, plans.l.mask) && Packed(masks.a, plans.a.mask) && Packed(masks.b, plans.b.mask)
      && lCount == CountTrue(plans.l.mask) && aCount == CountTrue(plans.a.mask) && bCount == CountTrue(plans.b.mask)
    modifies l`tailScalars, a`tailScalars, b`tailScalars
    ensures RowsFit(x, |ps|) && EmptySplit(x.flags, points)
    ensures x.flags == Flags(lCount <= |points.l| / 2, aCount <= |points.a| / 2, bCount <= |points.b1| / 2)
    ensures forall c :: 0 <= c < |ps| ==> ps[c].Mapped() && CircuitSized(ps, x, masks, c)
  {
    hide Packed, Union, Each, Words, CircuitSized;
    var bases := Tables([], [], [], []);
    var lSplit := lCount <= |points.l| / 2;
    if lSplit {
      l.TailMsmsResize(lCount);
      bases := bases.(l := seq(lCount, _ => 0));
    }
    var aSplit := aCount <= |points.a| / 2;
    if aSplit {
      a.TailMsmsResize(aCount);
      bases := bases.(a := seq(aCount, _ => 0));
    } else {
      a.TailMsmsResize(|points.a|);
    }
    var bSplit := bCount <= |points.b1| / 2;
    if bSplit {
      b.TailMsmsResize(bCount);
      bases := bases.(b1 := seq(bCount, _ => 0), b2 := seq(bCount, _ => 0));
    } else {
      b.TailMsmsResize(|points.b1|);
    }
    x := Split(Flags(lSplit, aSplit, bSplit), l.bitVector, a.bitVector, b.bitVector,
               l.tailScalars, a.tailScalars, b.tailScalars, bases);
    MasksCount(ps, points);
    forall c | 0 <= c < |ps| ensures ps[c].Mapped() && CircuitSized(ps, x, masks, c) {
      MaskedSizes(ps, points, masks, x, c);
    }
  }

  lemma MasksCount(ps: seq<Prover>, points: Tables)
    requires Shared(ps, points)
    ensures
      var plans := PlansOf(ps, 0, Flags(true, true, true));
      |plans.l.mask| == |points.l| && |plans.a.mask| == |points.a| && |plans.b.mask| == |points.b1|
  {
  }

  lemma EachAt(ps: seq<Prover>, sigs: Prover -> seq<bool>, c: nat)
    requires c < |ps|
    ensures Each(ps, sigs)[c] == sigs(ps[c])
  {
  }

  lemma MergeReady(ps: seq<Prover>, points: Tables, c: nat)
    requires Shared(ps, points) && c < |ps|
    ensures |Each(ps, LSigs)[c]| == |points.l| && Each(ps, LSigs)[c] == LSigs(ps[c])
    ensures |Each(ps, ASigs)[c]| == |points.a| && Each(ps, ASigs)[c] == ASigs(ps[c])
    ensures |Each(ps, BSigs)[c]| == |points.b1| && Each(ps, BSigs)[c] == BSigs(ps[c])
  {
    hide Each;
    EachAt(ps, LSigs, c);
    EachAt(ps, ASigs, c);
    EachAt(ps, BSigs, c);
    SameSizes(ps, points, c);
  }

  /** Merge the circuits' marks into one mask per query and count them. */
  method MergeAll(ps: seq<Prover>, points: Tables, l: seq<seq<Word>>, a: seq<seq<Word>>, b: seq<seq<Word>>)
    returns (masks: Masks, lCount: nat, aCount: nat, bCount: nat)
    requires Shared(ps, points) && |l| == |a| == |b| == |ps|
    requires forall c :: 0 <= c < |ps| ==>
      Packed(l[c], LSigs(ps[c])) && Packed(a[c], ASigs(ps[c])) && Packed(b[c], BSigs(ps[c]))
    ensures
      var plans := PlansOf(ps, 0, Flags(true, true, true));
      && Packed(masks.l, plans.l.mask) && Packed(masks.a, plans.a.mask) && Packed(masks.b, plans.b.mask)
      && lCount == CountTrue(plans.l.mask) && aCount == CountTrue(plans.a.mask) && bCount == CountTrue(plans.b.mask)
  {
    hide Packed, Union, Each, LSigs, ASigs, BSigs;
    forall c | 0 <= c < |ps|
      ensures |Each(ps, LSigs)[c]| == |points.l| && Each(ps, LSigs)[c] == LSigs(ps[c])
      ensures |Each(ps, ASigs)[c]| == |points.a| && Each(ps, ASigs)[c] == ASigs(ps[c])
      ensures |Each(ps, BSigs)[c]| == |points.b1| && Each(ps, BSigs)[c] == BSigs(ps[c])
    {
      MergeReady(ps, points, c);
    }
    var lMask, lc := MergeMasks(l, |points.l|, Each(ps, LSigs));
    var aMask, ac := MergeMasks(a, |points.a|, Each(ps, ASigs));
    var bMask, bc := MergeMasks(b, |points.b1|, Each(ps, BSigs));
    masks, lCount, aCount, bCount := Masks(lMask, aMask, bMask), lc, ac, bc;
  }

  /** From assignments to the results of every circuit: both passes, the merge, the split decision,
    * batch additions and tail multiplications over the GPUs. Each result is the whole product,
    * whichever queries were split.
    */
  method Prove(g1: Group, g2: Group, ps: seq<Prover>, points: Tables, gpus: nat, stale: seq<Results>)
    returns (r: seq<Results>)
    requires IsModule(g1) && IsModule(g2) && Shared(ps, points) && gpus > 0 && |stale| == |ps|
    ensures |r| == |ps|
    ensures forall c :: 0 <= c < |ps| ==> AllRight(g1, g2, ps[c], points, stale[c], r[c])
  {
    hide Packed, Union, Each, Words, CircuitSized, CircuitDone, TablesDone, AllRight, EmptySplit, LSigs, ASigs, BSigs;
    hide BatchSize, IsModule, FirstCircuit, Share, PlansOf;
    var l := new SplitVectors(|ps|, |points.l|);
    var a := new SplitVectors(|ps|, |points.a|);
    var b := new SplitVectors(|ps|, |points.b1|);
    var lv, av, bv := FirstPasses(ps, points, l.bitVector, a.bitVector, b.bitVector);
    l.bitVector, a.bitVector, b.bitVector := lv, av, bv;
    var masks, lCount, aCount, bCount := MergeAll(ps, points, lv, av, bv);
    VectorSizes(ps, points, lv, av, bv);
    var x := Resize(ps, points, masks, l, a, b, lCount, aCount, bCount);
    x := SecondPasses(ps, points, masks, x);
    l.bitVector, a.bitVector, b.bitVector := x.l, x.a, x.b;
    l.tailScalars, a.tailScalars, b.tailScalars := x.lTail, x.aTail, x.bTail;
    r := SumAll(g1, g2, ps, points, x, l.batchSize, a.batchSize, b.batchSize, Min(gpus, |ps|), stale);
  }

  lemma VectorSizes(ps: seq<Prover>, points: Tables, l: seq<seq<Word>>, a: seq<seq<Word>>, b: seq<seq<Word>>)
    requires Shared(ps, points) && |l| == |a| == |b| == |ps|
    requires forall c :: 0 <= c < |ps| ==>
      Packed(l[c], LSigs(ps[c])) && Packed(a[c], ASigs(ps[c])) && Packed(b[c], BSigs(ps[c]))
    ensures forall c :: 0 <= c < |ps| ==>
      |l[c]| == Words(|points.l|) && |a[c]| == Words(|points.a|) && |b[c]| == Words(|points.b1|)
  {
    hide Sigs, Words, Filled;
    forall c | 0 <= c < |ps|
      ensures |l[c]| == Words(|points.l|) && |a[c]| == Words(|points.a|) && |b[c]| == Words(|points.b1|)
    {
      SameSizes(ps, points, c);
    }
  }

  /** Each GPU sums its share of the circuits. */
  method SumAll(g1: Group, g2: Group, ps: seq<Prover>, points: Tables, x: Split,
                lSize: nat, aSize: nat, bSize: nat, gpus: nat, stale: seq<Results>) returns (r: seq<Results>)
    requires IsModule(g1) && IsModule(g2) && Shared(ps, points) && RowsFit(x, |ps|)
    requires lSize == BatchSize(|points.l|) && aSize == BatchSize(|points.a|) && bSize == BatchSize(|points.b1|)
    requires EmptySplit(x.flags, points) && gpus > 0 && |stale| == |ps|
    requires forall c :: 0 <= c < |ps| ==> CircuitDone(PlansOf(ps, c, x.flags), x, c)
    requires TablesDone(PlansOf(ps, 0, x.flags), x.bases, points)
    ensures |r| == |ps|
    ensures forall c :: 0 <= c < |ps| ==> AllRight(g1, g2, ps[c], points, stale[c], r[c])
  {
    hide BatchSize, CircuitDone, TablesDone, AllRight, EmptySplit, IsModule, FirstCircuit, Share, PlansOf;
    r := stale;
    SharesTile(|ps|, gpus, 0);
    for tid := 0 to gpus
      invariant |r| == |ps| && FirstCircuit(|ps|, gpus, tid) <= |ps|
      invariant forall c :: 0 <= c < FirstCircuit(|ps|, gpus, tid) ==> AllRight(g1, g2, ps[c], points, stale[c], r[c])
    {
      SharesTile(|ps|, gpus, tid);
      SharesBound(|ps|, gpus, tid + 1);
      var circuit0 := FirstCircuit(|ps|, gpus, tid);
      for c := circuit0 to circuit0 + Share(|ps|, gpus, tid)
        invariant |r| == |ps|
        invariant forall d :: 0 <= d < c ==> AllRight(g1, g2, ps[d], points, stale[d], r[d])
      {
        var rc := SumCircuit(g1, g2, ps, points, c, x, lSize, aSize, bSize, stale[c]);
        r := r[c := rc];
      }
    }
  }
}
