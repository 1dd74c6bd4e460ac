/** Sums of scaled points over any group, and the law behind the split of a
  * multi-scalar multiplication into additions and a shorter multiplication.
  */
module MsmMath {

  /** Group elements and scalars are coded as integers; the operations are arbitrary. */
  datatype Group = Group(zero: int, add: (int, int) -> int, mul: (int, int) -> int)

  predicate Assoc(g: Group, a: int, b: int, c: int) {
    g.add(g.add(a, b), c) == g.add(a, g.add(b, c))
  }

  /** An abelian group on which the scalars 0 and 1 act as they should. */
  ghost predicate IsModule(g: Group) {
    && (forall a, b :: g.add(a, b) == g.add(b, a))
    && (forall a, b, c :: Assoc(g, a, b, c))
    && (forall a :: g.add(a, g.zero) == a)
    && (forall p :: g.mul(0, p) == g.zero)
    && (forall p :: g.mul(1, p) == p)
  }

  const INTEGERS := Group(0, (a: int, b: int) => a + b, (s: int, p: int) => s * p)

  /** The integers are such a group, so nothing below is about no group at all. */
  lemma IntegersAreModule()
    ensures IsModule(INTEGERS)
  {
  }

  /** The multi-scalar multiplication: the sum of scalars[i] * points[i]. */
  function Msm(g: Group, points: seq<int>, scalars: seq<int>): int
    requires |points| == |scalars|
  {
    if points == [] then g.zero
    else
      var n := |points| - 1;
      g.add(Msm(g, points[..n], scalars[..n]), g.mul(scalars[n], points[n]))
  }

  /** The sum of the points whose bit is set. */
  function BitSum(g: Group, points: seq<int>, bits: seq<bool>): int
    requires |points| == |bits|
  {
    if points == [] then g.zero
    else
      var n := |points| - 1;
      var rest := BitSum(g, points[..n], bits[..n]);
      if bits[n] then g.add(rest, points[n]) else rest
  }

  /** The elements at the positions a mask selects, in order. */
  function Select(s: seq<int>, mask: seq<bool>): (r: seq<int>)
    requires |s| == |mask|
    ensures |r| == CountTrue(mask)
  {
    if s == [] then []
    else
      var n := |s| - 1;
      Select(s[..n], mask[..n]) + (if mask[n] then [s[n]] else [])
  }

  function CountTrue(mask: seq<bool>): (r: nat)
    ensures r <= |mask|
  {
    if mask == [] then 0 else CountTrue(mask[..|mask| - 1]) + (if mask[|mask| - 1] then 1 else 0)
  }

  /** czero: the scalar a tail keeps for a point. */
  function Czero(s: int): int { if s == 1 then 0 else s }

  lemma Interchange(g: Group, a: int, b: int, c: int, d: int)
    requires IsModule(g)
    ensures g.add(g.add(a, b), g.add(c, d)) == g.add(g.add(a, c), g.add(b, d))
  {
    assert Assoc(g, a, b, g.add(c, d)) && Assoc(g, b, c, d) && Assoc(g, c, b, d) && Assoc(g, a, c, g.add(b, d));
    assert g.add(b, c) == g.add(c, b);
  }

  lemma MsmAppend(g: Group, ps: seq<int>, ss: seq<int>, p: int, s: int)
    requires |ps| == |ss|
    ensures Msm(g, ps + [p], ss + [s]) == g.add(Msm(g, ps, ss), g.mul(s, p))
  {
    assert (ps + [p])[..|ps|] == ps && (ss + [s])[..|ps|] == ss;
  }

  /** Adding the points marked once and multiplying out the rest gives the whole product. */
  lemma {:induction false} SplitIsWhole(
    g: Group, points: seq<int>, scalars: seq<int>, tails: seq<int>, bits: seq<bool>, mask: seq<bool>)
    requires IsModule(g)
    requires |points| == |scalars| == |tails| == |bits| == |mask|
    requires forall i :: 0 <= i < |points| ==> (bits[i] ==> scalars[i] == 1 && (mask[i] ==> tails[i] == 0))
    requires forall i :: 0 <= i < |points| ==> (!bits[i] && mask[i] ==> tails[i] == scalars[i])
    requires forall i :: 0 <= i < |points| ==> (!bits[i] && !mask[i] ==> scalars[i] == 0)
    ensures g.add(Msm(g, Select(points, mask), Select(tails, mask)), BitSum(g, points, bits))
            == Msm(g, points, scalars)
    decreases |points|
  {
    if points != [] {
      var n := |points| - 1;
      var ps, ts := Select(points[..n], mask[..n]), Select(tails[..n], mask[..n]);
      var m, b := Msm(g, ps, ts), BitSum(g, points[..n], bits[..n]);
      SplitIsWhole(g, points[..n], scalars[..n], tails[..n], bits[..n], mask[..n]);
      var p := points[n];
      var tail := if mask[n] then g.mul(tails[n], p) else g.zero;
      var bit := if bits[n] then p else g.zero;
      if mask[n] {
        assert Select(points, mask) == ps + [p] && Select(tails, mask) == ts + [tails[n]];
        MsmAppend(g, ps, ts, p, tails[n]);
      } else {
        assert Select(points, mask) == ps && Select(tails, mask) == ts;
        assert g.add(m, g.zero) == m;
      }
      assert Msm(g, Select(points, mask), Select(tails, mask)) == g.add(m, tail);
      assert BitSum(g, points, bits) == g.add(b, bit);
      Interchange(g, m, tail, b, bit);
      assert g.add(tail, bit) == g.add(bit, tail);
    }
  }

  /** A range of additions can be done batch by batch. */
  lemma {:induction false} BitSumConcat(g: Group, p1: seq<int>, p2: seq<int>, b1: seq<bool>, b2: seq<bool>)
    requires IsModule(g) && |p1| == |b1| && |p2| == |b2|
    ensures BitSum(g, p1 + p2, b1 + b2) == g.add(BitSum(g, p1, b1), BitSum(g, p2, b2))
    decreases |p2|
  {
    if p2 == [] {
      assert p1 + p2 == p1 && b1 + b2 == b1;
    } else {
      var n := |p2| - 1;
      BitSumConcat(g, p1, p2[..n], b1, b2[..n]);
      assert (p1 + p2)[..|p1| + n] == p1 + p2[..n] && (b1 + b2)[..|b1| + n] == b1 + b2[..n];
      var a, b := BitSum(g, p1, b1), BitSum(g, p2[..n], b2[..n]);
      assert Assoc(g, a, b, p2[n]);
    }
  }

  /** The next selected position of a mask is its count so far. */
  lemma SelectNext(s: seq<int>, mask: seq<bool>, n: nat)
    requires |s| == |mask| && n < |s|
    ensures Select(s[..n + 1], mask[..n + 1]) == Select(s[..n], mask[..n]) + (if mask[n] then [s[n]] else [])
    ensures CountTrue(mask[..n + 1]) == CountTrue(mask[..n]) + (if mask[n] then 1 else 0)
  {
    assert s[..n + 1][..n] == s[..n] && mask[..n + 1][..n] == mask[..n];
  }

  lemma {:induction false} CountPrefix(mask: seq<bool>, n: nat)
    requires n <= |mask|
    ensures CountTrue(mask[..n]) <= CountTrue(mask)
    decreases |mask|
  {
    if n < |mask| {
      CountPrefix(mask[..|mask| - 1], n);
      assert mask[..|mask| - 1][..n] == mask[..n];
    } else {
      assert mask[..n] == mask;
    }
  }
}
